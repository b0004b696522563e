/** The refreshing auth provider: tokens are refreshed through the OAuth
    token endpoint when they expire, with at most one refresh awaited per
    user at a time. Every awaited network answer is a parameter; each
    method runs one uninterrupted stretch of the source between awaits. */
module RefreshingAuth {
  import opened Wrappers
  import opened Decimal
  import opened CallOptions
  import opened AccessTokens
  import opened AuthErrors
  import opened AuthHelpers
  import Transform

  datatype RefreshingAuthProviderConfig = RefreshingAuthProviderConfig(
    clientId: string,
    clientSecret: string,
    redirectUri: Option<string>,
    scopes: Option<seq<string>>)

  /** The refresh promise stored for a user: still pending, or rejected.
      `ticket` tells apart the promises of successive refreshes. */
  datatype PendingRefresh =
    | InFlight(ticket: nat, refreshToken: string)
    | Rejected(ticket: nat, cause: AuthError)

  /** An `onRefresh` emission. */
  datatype RefreshEvent = RefreshEvent(userId: int, token: AccessToken)

  /** A network call the provider makes, with the access token it sends. */
  datatype OutgoingCall = OutgoingCall(options: ApiCallOptions, accessToken: Option<string>)

  /** How getAccessTokenForUser proceeds from the state it finds. */
  datatype TokenLookup =
    | Ready(token: AccessTokenWithUserId)
    | Failed(error: AuthError)
    /** Await the refresh already in flight, the one with this ticket, and
        return its token. */
    | JoinRefresh(ticket: nat)
    /** Start a refresh, then re-attach these scopes to its token. */
    | StartRefresh(previousScopes: Option<seq<string>>)

  const IdentityCall := UrlOnly("user/oauth").(callType := Some(Api))

  /** The unregistered-user message; getScopesForUser ends it without a
      full stop, getAccessTokenForUser with a full stop and a line break,
      refreshAccessTokenForUser with a full stop. */
  const UnregisteredTail := "\" could not be located in the authentication provider registry. "
    + "Please add the user first by using one of the following methods: addUser, addUserForToken, or addUserForCode"

  function UnregisteredMessage(userId: int): string
  {
    "User \"" + IntToDecimal(userId) + UnregisteredTail
  }

  const NoRefreshTokenTail := "\". Refresh token is not specified."

  function NoRefreshTokenMessage(userId: int): string
  {
    "Unable to refresh access token for user \"" + IntToDecimal(userId) + NoRefreshTokenTail
  }

  /** _validateToken: both the access and the refresh token must be
      non-empty. */
  function ValidateToken(token: AccessToken, userId: Option<int>): (r: Outcome<AuthError>)
    ensures r.Pass? <==> token.accessToken != "" && token.refreshToken != ""
    ensures token.accessToken == "" ==> r == Fail(InvalidToken(userId, InvalidAccessTokenMessage(userId)))
    ensures token.accessToken != "" && token.refreshToken == "" ==>
      r == Fail(InvalidToken(userId, InvalidRefreshTokenMessage(userId)))
  {
    if token.accessToken == "" then Fail(InvalidToken(userId, InvalidAccessTokenMessage(userId)))
    else if token.refreshToken == "" then Fail(InvalidToken(userId, InvalidRefreshTokenMessage(userId)))
    else Pass
  }

  /** The checks addUser makes before storing a token: validation, then the
      configured scopes against the token's scopes when it has any. */
  function AdmissionCheck(token: AccessToken, userId: int, configured: Option<seq<string>>): (r: Outcome<AuthError>)
    ensures r.Pass? <==>
      token.accessToken != "" && token.refreshToken != "" &&
      (token.scopes.None? || CompareScopes(token.scopes.value, configured, Some(userId)).Pass?)
    ensures ValidateToken(token, Some(userId)).Fail? ==> r == ValidateToken(token, Some(userId))
  {
    match ValidateToken(token, Some(userId))
    case Fail(e) => Fail(e)
    case Pass => if token.scopes.Some? then CompareScopes(token.scopes.value, configured, Some(userId)) else Pass
  }

  /** The lookup's continuation after its own refresh: the refreshed token
      gets the scopes the old token had, and is checked against them. */
  function AfterOwnRefresh(refreshed: AccessTokenWithUserId, previousScopes: Option<seq<string>>,
                           requested: Option<seq<string>>): (r: Result<AccessTokenWithUserId, AuthError>)
    ensures r.Ok? ==> r.value == refreshed.(token := refreshed.token.(scopes := previousScopes))
    ensures r.Ok? <==> previousScopes.None? || CompareScopes(previousScopes.value, requested, Some(refreshed.userId)).Pass?
  {
    var token := refreshed.token.(scopes := previousScopes);
    if previousScopes.Some? && CompareScopes(previousScopes.value, requested, Some(refreshed.userId)).Fail? then
      Err(CompareScopes(previousScopes.value, requested, Some(refreshed.userId)).error)
    else Ok(refreshed.(token := token))
  }

  /** The checks addUserForToken and addUserForCode make once the user is
      identified: the token's scopes, when it has any, against the
      configured ones, then addUser's own checks. The order only decides
      which error is reported: it passes exactly when AdmissionCheck does. */
  function ScopeFirstCheck(token: AccessToken, userId: int, configured: Option<seq<string>>): (r: Outcome<AuthError>)
    ensures r.Pass? <==> AdmissionCheck(token, userId, configured).Pass?
    ensures token.scopes.Some? && CompareScopes(token.scopes.value, configured, Some(userId)).Fail? ==>
      r == CompareScopes(token.scopes.value, configured, Some(userId))
    ensures token.scopes.None? || CompareScopes(token.scopes.value, configured, Some(userId)).Pass? ==>
      r == ValidateToken(token, Some(userId))
  {
    if token.scopes.Some? && CompareScopes(token.scopes.value, configured, Some(userId)).Fail? then
      CompareScopes(token.scopes.value, configured, Some(userId))
    else AdmissionCheck(token, userId, configured)
  }

  /** The token addUserForToken goes on with: one that is not expired is
      replaced by the refresh grant's answer, an expired one is kept. */
  function TokenToAdd(token: AccessToken, now: int, refreshAnswer: Result<AccessTokenData, Transform.ApiCallError>,
                      refreshedAt: int): Result<AccessToken, AuthError>
  {
    if IsExpired(token, now) then Ok(token) else TokenFromEndpoint(refreshAnswer, refreshedAt)
  }

  class RefreshingAuthProvider {
    const config: RefreshingAuthProviderConfig
    var registry: map<int, AccessToken>
    var pending: map<int, PendingRefresh>
    /** Every `onRefresh` emission so far. */
    var refreshEvents: seq<RefreshEvent>
    /** Every call made to the token and identity endpoints so far. */
    var calls: seq<OutgoingCall>
    var nextTicket: nat
    /** How each refresh promise that has settled ended, by ticket: what
        every lookup awaiting it receives. */
    var settled: map<nat, Result<AccessToken, AuthError>>

    /** Tickets of stored promises were all handed out. */
    ghost predicate Valid()
      reads this
    {
      forall id :: id in pending ==> pending[id].ticket < nextTicket
    }

    constructor(config: RefreshingAuthProviderConfig)
      ensures this.config == config && Valid()
      ensures registry == map[] && pending == map[] && refreshEvents == [] && calls == [] && settled == map[]
    {
      this.config := config;
      registry := map[];
      pending := map[];
      refreshEvents := [];
      calls := [];
      nextTicket := 0;
      settled := map[];
    }

    function HasUser(userId: int): (b: bool)
      reads this
      ensures b <==> userId in registry
    {
      userId in registry
    }

    /** addUser: store the token when it passes the admission checks and
        return it tagged with the user id. */
    method AddUser(userId: int, token: AccessToken) returns (r: Result<AccessTokenWithUserId, AuthError>)
      modifies this
      ensures r.Ok? <==> AdmissionCheck(token, userId, config.scopes).Pass?
      ensures r.Err? ==> Fail(r.error) == AdmissionCheck(token, userId, config.scopes) && registry == old(registry)
      ensures r.Ok? ==> r.value == AccessTokenWithUserId(userId, token) && registry == old(registry)[userId := token]
      ensures pending == old(pending) && refreshEvents == old(refreshEvents) && calls == old(calls)
      ensures nextTicket == old(nextTicket) && settled == old(settled)
    {
      match AdmissionCheck(token, userId, config.scopes)
      case Fail(e) =>
        r := Err(e);
      case Pass =>
        registry := registry[userId := token];
        r := Ok(AccessTokenWithUserId(userId, token));
    }

    /** addUserForToken, given the token endpoint's answer (used only when a
        refresh happens, at time `refreshedAt`) and the identity endpoint's
        answer. A token that is NOT expired at `now` is refreshed first, with
        the configured scopes; the identity call then uses the possibly
        refreshed access token; the user is stored under the id it names
        and `onRefresh` is emitted only after a refresh. */
    method AddUserForToken(token: AccessToken, now: int,
                           refreshAnswer: Result<AccessTokenData, Transform.ApiCallError>, refreshedAt: int,
                           identityAnswer: Result<int, Transform.ApiCallError>)
      returns (r: Result<AccessTokenWithUserId, AuthError>)
      requires Valid()
      modifies this
      ensures Valid()
      ensures ValidateToken(token, None).Fail? ==>
        r == Err(ValidateToken(token, None).error) && registry == old(registry) && calls == old(calls)
      ensures r.Ok? <==>
        ValidateToken(token, None).Pass? && TokenToAdd(token, now, refreshAnswer, refreshedAt).Ok? && identityAnswer.Ok? &&
        AdmissionCheck(TokenToAdd(token, now, refreshAnswer, refreshedAt).value, identityAnswer.value, config.scopes).Pass?
      ensures ValidateToken(token, None).Pass? && TokenToAdd(token, now, refreshAnswer, refreshedAt).Err? ==>
        r == Err(TokenToAdd(token, now, refreshAnswer, refreshedAt).error) && |calls| == |old(calls)| + 1
      ensures ValidateToken(token, None).Pass? && TokenToAdd(token, now, refreshAnswer, refreshedAt).Ok? ==>
        var added := TokenToAdd(token, now, refreshAnswer, refreshedAt).value;
        |calls| == |old(calls)| + (if IsExpired(token, now) then 1 else 2) &&
        calls[|calls| - 1] == OutgoingCall(IdentityCall, Some(added.accessToken)) &&
        (identityAnswer.Err? ==> r == Err(RequestFailed(identityAnswer.error))) &&
        (identityAnswer.Ok? && r.Err? ==> Fail(r.error) == ScopeFirstCheck(added, identityAnswer.value, config.scopes))
      ensures ValidateToken(token, None).Pass? ==>
        |calls| >= |old(calls)| && calls[..|old(calls)|] == old(calls) &&
        (!IsExpired(token, now) <==>
          |calls| > |old(calls)| &&
          calls[|old(calls)|] == OutgoingCall(RefreshRequest(config.clientId, config.clientSecret, token.refreshToken, config.scopes), None))
      ensures r.Ok? ==>
        identityAnswer.Ok? && r.value.userId == identityAnswer.value &&
        (IsExpired(token, now) || refreshAnswer.Ok?) &&
        r.value.token == (if IsExpired(token, now) then token else CreateAccessTokenFromData(refreshAnswer.value, refreshedAt)) &&
        registry == old(registry)[r.value.userId := r.value.token] &&
        refreshEvents == old(refreshEvents) + (if IsExpired(token, now) then [] else [RefreshEvent(r.value.userId, r.value.token)])
      ensures r.Err? ==> registry == old(registry) && refreshEvents == old(refreshEvents)
      ensures pending == old(pending) && settled == old(settled) && nextTicket == old(nextTicket)
    {
      var v := ValidateToken(token, None);
      if v.Fail? {
        return Err(v.error);
      }
      var accessToken := token;
      var isTokenRefreshed := false;
      if !IsExpired(accessToken, now) {
        calls := calls + [OutgoingCall(RefreshRequest(config.clientId, config.clientSecret, accessToken.refreshToken, config.scopes), None)];
        var refreshed := TokenFromEndpoint(refreshAnswer, refreshedAt);
        if refreshed.Err? {
          return Err(refreshed.error);
        }
        accessToken := refreshed.value;
        isTokenRefreshed := true;
      }
      calls := calls + [OutgoingCall(IdentityCall, Some(accessToken.accessToken))];
      if identityAnswer.Err? {
        return Err(RequestFailed(identityAnswer.error));
      }
      var userId := identityAnswer.value;
      if accessToken.scopes.Some? {
        var checked := CompareScopes(accessToken.scopes.value, config.scopes, Some(userId));
        if checked.Fail? {
          return Err(checked.error);
        }
      }
      var added := AddUser(userId, accessToken);
      if added.Err? {
        return Err(added.error);
      }
      if isTokenRefreshed {
        refreshEvents := refreshEvents + [RefreshEvent(userId, accessToken)];
      }
      r := Ok(AccessTokenWithUserId(userId, accessToken));
    }

    /** addUserForCode, given the token endpoint's answer to the code
        exchange (received at `now`) and the identity endpoint's answer:
        requires a redirect URI, stores the new token with the given scopes
        under the id the identity call names, and always emits `onRefresh`. */
    method AddUserForCode(code: string, scopes: Option<seq<string>>,
                          exchangeAnswer: Result<AccessTokenData, Transform.ApiCallError>, now: int,
                          identityAnswer: Result<int, Transform.ApiCallError>)
      returns (r: Result<AccessTokenWithUserId, AuthError>)
      requires Valid()
      modifies this
      ensures Valid()
      ensures (config.redirectUri.None? || config.redirectUri == Some("")) ==>
        r == Err(MissingRedirectUri(RedirectUriMessage)) && calls == old(calls)
      ensures r.Ok? <==>
        config.redirectUri.Some? && config.redirectUri != Some("") && exchangeAnswer.Ok? && identityAnswer.Ok? &&
        AdmissionCheck(CreateAccessTokenFromData(exchangeAnswer.value, now).(scopes := scopes), identityAnswer.value, config.scopes).Pass?
      ensures config.redirectUri.Some? && config.redirectUri != Some("") ==>
        |calls| > |old(calls)| &&
        calls[|old(calls)|] == OutgoingCall(ExchangeCodeRequest(config.clientId, config.clientSecret, config.redirectUri.value, code), None) &&
        (exchangeAnswer.Err? ==> r == Err(RequestFailed(exchangeAnswer.error)) && |calls| == |old(calls)| + 1) &&
        (exchangeAnswer.Ok? ==>
          |calls| == |old(calls)| + 2 && calls[|old(calls)| + 1] == OutgoingCall(IdentityCall, Some(exchangeAnswer.value.accessToken)))
      ensures config.redirectUri.Some? && config.redirectUri != Some("") && exchangeAnswer.Ok? ==>
        var added := CreateAccessTokenFromData(exchangeAnswer.value, now).(scopes := scopes);
        (identityAnswer.Err? ==> r == Err(RequestFailed(identityAnswer.error))) &&
        (identityAnswer.Ok? && r.Err? ==> Fail(r.error) == ScopeFirstCheck(added, identityAnswer.value, config.scopes))
      ensures r.Ok? ==>
        config.redirectUri.Some? && exchangeAnswer.Ok? && identityAnswer.Ok? &&
        r.value == AccessTokenWithUserId(identityAnswer.value, CreateAccessTokenFromData(exchangeAnswer.value, now).(scopes := scopes)) &&
        registry == old(registry)[r.value.userId := r.value.token] &&
        refreshEvents == old(refreshEvents) + [RefreshEvent(r.value.userId, r.value.token)] &&
        calls == old(calls) + [
          OutgoingCall(ExchangeCodeRequest(config.clientId, config.clientSecret, config.redirectUri.value, code), None),
          OutgoingCall(IdentityCall, Some(exchangeAnswer.value.accessToken))]
      ensures r.Err? ==> registry == old(registry) && refreshEvents == old(refreshEvents)
      ensures pending == old(pending) && settled == old(settled) && nextTicket == old(nextTicket)
    {
      if config.redirectUri.None? || config.redirectUri == Some("") {
        return Err(MissingRedirectUri(RedirectUriMessage));
      }
      calls := calls + [OutgoingCall(ExchangeCodeRequest(config.clientId, config.clientSecret, config.redirectUri.value, code), None)];
      var exchanged := TokenFromEndpoint(exchangeAnswer, now);
      if exchanged.Err? {
        return Err(exchanged.error);
      }
      var token := exchanged.value;
      calls := calls + [OutgoingCall(IdentityCall, Some(token.accessToken))];
      if identityAnswer.Err? {
        return Err(RequestFailed(identityAnswer.error));
      }
      var userId := identityAnswer.value;
      token := token.(scopes := scopes);
      if token.scopes.Some? {
        var checked := CompareScopes(token.scopes.value, config.scopes, Some(userId));
        if checked.Fail? {
          return Err(checked.error);
        }
      }
      var added := AddUser(userId, token);
      if added.Err? {
        return Err(added.error);
      }
      refreshEvents := refreshEvents + [RefreshEvent(userId, token)];
      r := Ok(AccessTokenWithUserId(userId, token));
    }

    /** removeUser forgets the stored token only: a refresh in flight stays
        awaited and, when it completes, stores its token again. */
    method RemoveUser(userId: int)
      modifies this
      ensures registry == old(registry) - {userId}
      ensures pending == old(pending) && refreshEvents == old(refreshEvents) && calls == old(calls)
      ensures nextTicket == old(nextTicket) && settled == old(settled)
    {
      registry := registry - {userId};
    }

    function GetScopesForUser(userId: int): (r: Result<seq<string>, AuthError>)
      reads this
      ensures r.Ok? <==> userId in registry
      ensures r.Ok? ==> r.value == registry[userId].scopes.GetOr([])
      ensures r.Err? ==> r.error == UnregisteredUser(Some(userId), UnregisteredMessage(userId))
    {
      if userId in registry then Ok(registry[userId].scopes.GetOr([]))
      else Err(UnregisteredUser(Some(userId), UnregisteredMessage(userId)))
    }

    /** getAccessTokenForUser up to its first await, at time `now`. A stored
        refresh promise is awaited before anything else; a live stored
        token is returned after the scope check; otherwise a refresh
        starts. */
    function LookupAccessToken(userId: int, requested: Option<seq<string>>, now: int): (r: TokenLookup)
      reads this
      ensures userId in pending && pending[userId].InFlight? ==> r == JoinRefresh(pending[userId].ticket)
      ensures userId in pending && pending[userId].Rejected? ==> r == Failed(pending[userId].cause)
      ensures userId !in pending && userId !in registry ==>
        r == Failed(UnregisteredUser(Some(userId), UnregisteredMessage(userId) + ".\n"))
      ensures r.Ready? <==>
        userId !in pending && userId in registry &&
        registry[userId].accessToken != "" && !IsExpired(registry[userId], now) &&
        (registry[userId].scopes.None? || CompareScopes(registry[userId].scopes.value, requested, Some(userId)).Pass?)
      ensures r.Ready? ==> r.token == AccessTokenWithUserId(userId, registry[userId])
      ensures r.StartRefresh? <==>
        userId !in pending && userId in registry &&
        (registry[userId].accessToken == "" || IsExpired(registry[userId], now))
      ensures r.StartRefresh? ==> r.previousScopes == registry[userId].scopes
    {
      if userId in pending then
        match pending[userId]
        case InFlight(ticket, _) => JoinRefresh(ticket)
        case Rejected(_, cause) => Failed(cause)
      else if userId !in registry then
        Failed(UnregisteredUser(Some(userId), UnregisteredMessage(userId) + ".\n"))
      else
        var current := registry[userId];
        if current.accessToken != "" && !IsExpired(current, now) then
          if current.scopes.Some? && CompareScopes(current.scopes.value, requested, Some(userId)).Fail? then
            Failed(CompareScopes(current.scopes.value, requested, Some(userId)).error)
          else Ready(AccessTokenWithUserId(userId, current))
        else StartRefresh(current.scopes)
    }

    /** getAccessTokenForUser after awaiting the refresh it joined, the one
        with `ticket`: nothing yet while that refresh is in flight, then the
        token it settled with, tagged with the user id, or its failure. The
        joined lookup gets the token as the refresh stored it: the scopes
        are re-attached and checked only in the copy of the lookup that
        started the refresh. */
    function ResumeJoined(userId: int, ticket: nat): (r: Option<Result<AccessTokenWithUserId, AuthError>>)
      reads this
      ensures r.Some? <==> ticket in settled
      ensures r.Some? ==> (r.value.Ok? <==> settled[ticket].Ok?)
      ensures r.Some? && r.value.Ok? ==> r.value.value == AccessTokenWithUserId(userId, settled[ticket].value)
      ensures r.Some? && r.value.Err? ==> r.value.error == settled[ticket].error
    {
      if ticket !in settled then None
      else match settled[ticket]
        case Ok(token) => Some(Ok(AccessTokenWithUserId(userId, token)))
        case Err(e) => Some(Err(e))
    }

    /** refreshAccessTokenForUser up to its await: sends the refresh grant
        (with no scopes) and stores its promise under a fresh ticket. It does
        not look at a promise already stored, which it replaces. */
    method BeginRefresh(userId: int) returns (r: Result<nat, AuthError>)
      requires Valid()
      modifies this
      ensures Valid()
      ensures userId !in old(registry) ==>
        r == Err(UnregisteredUser(Some(userId), UnregisteredMessage(userId) + ".")) && unchanged(this)
      ensures userId in old(registry) && old(registry)[userId].refreshToken == "" ==>
        r == Err(InvalidToken(Some(userId), NoRefreshTokenMessage(userId))) && unchanged(this)
      ensures r.Ok? <==> userId in old(registry) && old(registry)[userId].refreshToken != ""
      ensures r.Ok? ==>
        r.value == old(nextTicket) && nextTicket == old(nextTicket) + 1 &&
        pending == old(pending)[userId := InFlight(r.value, old(registry)[userId].refreshToken)] &&
        calls == old(calls) + [OutgoingCall(RefreshRequest(config.clientId, config.clientSecret, old(registry)[userId].refreshToken, None), None)] &&
        registry == old(registry) && refreshEvents == old(refreshEvents) && settled == old(settled)
    {
      if userId !in registry {
        return Err(UnregisteredUser(Some(userId), UnregisteredMessage(userId) + "."));
      }
      var current := registry[userId];
      if current.refreshToken == "" {
        return Err(InvalidToken(Some(userId), NoRefreshTokenMessage(userId)));
      }
      calls := calls + [OutgoingCall(RefreshRequest(config.clientId, config.clientSecret, current.refreshToken, None), None)];
      pending := pending[userId := InFlight(nextTicket, current.refreshToken)];
      r := Ok(nextTicket);
      nextTicket := nextTicket + 1;
    }

    /** refreshAccessTokenForUser after the await of the refresh with this
        ticket succeeded at `now`: the promise settles with the new token
        (without scopes), the entry stored for the user is dropped whichever
        refresh it belongs to, and the token is stored, announced and
        returned tagged with the user id. */
    method CompleteRefresh(userId: int, ticket: nat, answer: AccessTokenData, now: int) returns (r: AccessTokenWithUserId)
      requires Valid()
      modifies this
      ensures Valid()
      ensures r == AccessTokenWithUserId(userId, CreateAccessTokenFromData(answer, now))
      ensures settled == old(settled)[ticket := Ok(r.token)]
      ensures pending == old(pending) - {userId}
      ensures registry == old(registry)[userId := r.token]
      ensures refreshEvents == old(refreshEvents) + [RefreshEvent(userId, r.token)]
      ensures calls == old(calls) && nextTicket == old(nextTicket)
    {
      var token := CreateAccessTokenFromData(answer, now);
      settled := settled[ticket := Ok(token)];
      pending := pending - {userId};
      registry := registry[userId := token];
      refreshEvents := refreshEvents + [RefreshEvent(userId, token)];
      r := AccessTokenWithUserId(userId, token);
    }

    /** refreshAccessTokenForUser when its await failed, as written: the
        rejected promise stays stored, so every later lookup for the user
        rethrows this failure. */
    method FailRefresh(userId: int, ticket: nat, cause: Transform.ApiCallError) returns (e: AuthError)
      requires Valid()
      modifies this
      ensures Valid()
      ensures e == RequestFailed(cause) && settled == old(settled)[ticket := Err(e)]
      ensures userId in old(pending) && old(pending)[userId].ticket == ticket ==>
        pending == old(pending)[userId := Rejected(ticket, e)]
      ensures !(userId in old(pending) && old(pending)[userId].ticket == ticket) ==> pending == old(pending)
      ensures registry == old(registry) && refreshEvents == old(refreshEvents) && calls == old(calls)
      ensures nextTicket == old(nextTicket)
    {
      e := RequestFailed(cause);
      settled := settled[ticket := Err(e)];
      if userId in pending && pending[userId].ticket == ticket {
        pending := pending[userId := Rejected(ticket, e)];
      }
    }

    /** A failed refresh as evidently intended: its promise is dropped, so
        later lookups consult the registry again. */
    method AbandonRefresh(userId: int, ticket: nat, cause: Transform.ApiCallError) returns (e: AuthError)
      requires Valid()
      modifies this
      ensures Valid()
      ensures e == RequestFailed(cause) && settled == old(settled)[ticket := Err(e)]
      ensures userId in old(pending) && old(pending)[userId].ticket == ticket ==> pending == old(pending) - {userId}
      ensures !(userId in old(pending) && old(pending)[userId].ticket == ticket) ==> pending == old(pending)
      ensures registry == old(registry) && refreshEvents == old(refreshEvents) && calls == old(calls)
      ensures nextTicket == old(nextTicket)
    {
      e := RequestFailed(cause);
      settled := settled[ticket := Err(e)];
      if userId in pending && pending[userId].ticket == ticket {
        pending := pending - {userId};
      }
    }
  }

  /** Two lookups for a user whose token has expired, the second arriving
      while the first one's refresh is awaited: one refresh grant is sent,
      with the stored refresh token and no scopes, and one `onRefresh` is
      emitted. The lookup that started the refresh gets the new token with
      the stored token's scopes re-attached and checked against the
      requested ones; the lookup that joined it gets the new token as
      stored, without scopes and unchecked. */
  method ConcurrentLookupsShareOneRefresh(config: RefreshingAuthProviderConfig, userId: int, stored: AccessToken,
                                          requested: Option<seq<string>>, now: int, answer: AccessTokenData, later: int)
    returns (first: Result<AccessTokenWithUserId, AuthError>, second: Result<AccessTokenWithUserId, AuthError>,
             sent: seq<OutgoingCall>, events: seq<RefreshEvent>)
    requires AdmissionCheck(stored, userId, config.scopes).Pass?
    requires IsExpired(stored, now)
    ensures second == Ok(AccessTokenWithUserId(userId, CreateAccessTokenFromData(answer, later)))
    ensures first.Ok? <==> stored.scopes.None? || CompareScopes(stored.scopes.value, requested, Some(userId)).Pass?
    ensures first.Ok? ==> first.value == AccessTokenWithUserId(userId, CreateAccessTokenFromData(answer, later).(scopes := stored.scopes))
    ensures stored.scopes.None? ==> first == second
    ensures sent == [OutgoingCall(RefreshRequest(config.clientId, config.clientSecret, stored.refreshToken, None), None)]
    ensures events == [RefreshEvent(userId, CreateAccessTokenFromData(answer, later))]
  {
    var p := new RefreshingAuthProvider(config);
    var added := p.AddUser(userId, stored);
    var lookup1 := p.LookupAccessToken(userId, requested, now);
    assert lookup1 == StartRefresh(stored.scopes);
    var started := p.BeginRefresh(userId);
    var lookup2 := p.LookupAccessToken(userId, requested, now);
    assert lookup2 == JoinRefresh(started.value);
    var refreshed := p.CompleteRefresh(userId, started.value, answer, later);
    first := AfterOwnRefresh(refreshed, lookup1.previousScopes, requested);
    var resumed := p.ResumeJoined(userId, lookup2.ticket);
    second := resumed.value;
    sent := p.calls;
    events := p.refreshEvents;
  }

  /** Removing a user while their refresh is awaited does not stop lookups
      from joining it, and its completion registers the user again. */
  method RemovalDuringRefreshIsUndone(config: RefreshingAuthProviderConfig, userId: int, stored: AccessToken,
                                      now: int, answer: AccessTokenData, later: int)
    returns (joined: TokenLookup, registeredAfter: bool, scopesAfter: Result<seq<string>, AuthError>)
    requires stored.accessToken != "" && stored.refreshToken != "" && stored.scopes.None?
    requires IsExpired(stored, now)
    ensures joined.JoinRefresh?
    ensures registeredAfter
    ensures scopesAfter == Ok([])
  {
    var p := new RefreshingAuthProvider(config);
    var added := p.AddUser(userId, stored);
    var started := p.BeginRefresh(userId);
    p.RemoveUser(userId);
    joined := p.LookupAccessToken(userId, None, now);
    var refreshed := p.CompleteRefresh(userId, started.value, answer, later);
    registeredAfter := p.HasUser(userId);
    scopesAfter := p.GetScopesForUser(userId);
  }

  /** As written, one failed refresh makes every later lookup for the user
      fail with that same error, even after a valid replacement token has been
      added for them. */
  method FailedRefreshWedgesUser(config: RefreshingAuthProviderConfig, userId: int, stored: AccessToken, now: int,
                                 cause: Transform.ApiCallError, replacement: AccessToken, later: int)
    returns (readded: Result<AccessTokenWithUserId, AuthError>, lookup: TokenLookup)
    requires stored.accessToken != "" && stored.refreshToken != "" && stored.scopes.None?
    requires replacement.accessToken != "" && replacement.refreshToken != "" && replacement.scopes.None?
    requires IsExpired(stored, now) && !IsExpired(replacement, later)
    ensures readded == Ok(AccessTokenWithUserId(userId, replacement))
    ensures lookup == Failed(RequestFailed(cause))
  {
    var p := new RefreshingAuthProvider(config);
    var added := p.AddUser(userId, stored);
    var started := p.BeginRefresh(userId);
    var failure := p.FailRefresh(userId, started.value, cause);
    readded := p.AddUser(userId, replacement);
    lookup := p.LookupAccessToken(userId, None, later);
  }

  /** With the failed refresh abandoned, the fresh token added afterwards is
      served again. */
  method AbandonedRefreshRecovers(config: RefreshingAuthProviderConfig, userId: int, stored: AccessToken, now: int,
                                  cause: Transform.ApiCallError, replacement: AccessToken, later: int)
    returns (readded: Result<AccessTokenWithUserId, AuthError>, lookup: TokenLookup)
    requires stored.accessToken != "" && stored.refreshToken != "" && stored.scopes.None?
    requires replacement.accessToken != "" && replacement.refreshToken != "" && replacement.scopes.None?
    requires IsExpired(stored, now) && !IsExpired(replacement, later)
    ensures readded == Ok(AccessTokenWithUserId(userId, replacement))
    ensures lookup == Ready(AccessTokenWithUserId(userId, replacement))
  {
    var p := new RefreshingAuthProvider(config);
    var added := p.AddUser(userId, stored);
    var started := p.BeginRefresh(userId);
    var failure := p.AbandonRefresh(userId, started.value, cause);
    readded := p.AddUser(userId, replacement);
    lookup := p.LookupAccessToken(userId, None, later);
  }
}
