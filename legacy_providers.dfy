/** The earlier generation of the auth providers: a base registry class
    with a static subclass, and a refreshing provider of its own. Their
    errors carry no user id. */
module LegacyAuth {
  import opened Wrappers
  import opened Decimal
  import opened CallOptions
  import opened AccessTokens
  import opened AuthErrors
  import opened AuthHelpers
  import Transform
  import RefreshingAuth

  /** `User ${userId} not found in the auth provider registry. Use
      {<provider>#addUser} method to add the user first.` */
  const NotFoundMiddle := " not found in the auth provider registry. Use {"
  const NotFoundTail := "#addUser} method to add the user first."

  function NotFoundMessage(userId: int, provider: string): string
  {
    "User " + IntToDecimal(userId) + NotFoundMiddle + provider + NotFoundTail
  }

  const RefreshTokenNotSetTail := ". Refresh token is not set"

  /** The earlier refresh's message for a user without a refresh token. */
  function RefreshTokenNotSetMessage(userId: int): string
  {
    "Unable to refresh access token for user " + IntToDecimal(userId) + RefreshTokenNotSetTail
  }

  /** A user given to the base provider's constructor. */
  datatype AuthUser = AuthUser(userId: int, token: AccessToken)

  /** The registry the constructor's forEach builds: users are stored in
      order, so a later entry for the same id replaces an earlier one. */
  function RegistryFrom(users: seq<AuthUser>): map<int, AccessToken>
  {
    if users == [] then map[]
    else RegistryFrom(users[..|users| - 1])[users[|users| - 1].userId := users[|users| - 1].token]
  }

  /** Each listed id is registered, with the token of its last entry, and
      nothing else is. */
  lemma {:induction false} RegistryFromLastEntryWins(users: seq<AuthUser>, i: nat)
    requires i < |users|
    requires forall j :: i < j < |users| ==> users[j].userId != users[i].userId
    ensures users[i].userId in RegistryFrom(users)
    ensures RegistryFrom(users)[users[i].userId] == users[i].token
  {
    if i < |users| - 1 {
      var init := users[..|users| - 1];
      assert init[i] == users[i];
      RegistryFromLastEntryWins(init, i);
    }
  }

  lemma {:induction false} RegistryFromKeys(users: seq<AuthUser>, id: int)
    ensures id in RegistryFrom(users) <==> exists i :: 0 <= i < |users| && users[i].userId == id
  {
    if users != [] {
      var init := users[..|users| - 1];
      RegistryFromKeys(init, id);
      if id in RegistryFrom(init) {
        var i :| 0 <= i < |init| && init[i].userId == id;
        assert users[i].userId == id;
      }
      if exists i :: 0 <= i < |users| && users[i].userId == id {
        var i :| 0 <= i < |users| && users[i].userId == id;
        if i < |users| - 1 {
          assert init[i].userId == id;
        }
      }
    }
  }

  class BaseAuthProvider {
    const clientId: string
    var registry: map<int, AccessToken>

    constructor(clientId: string, users: seq<AuthUser>)
      ensures this.clientId == clientId
      ensures registry == RegistryFrom(users)
    {
      this.clientId := clientId;
      var stored := map[];
      var i := 0;
      while i < |users|
        invariant 0 <= i <= |users|
        invariant stored == RegistryFrom(users[..i])
      {
        assert users[..i + 1][..i] == users[..i];
        stored := stored[users[i].userId := users[i].token];
        i := i + 1;
      }
      assert users[..|users|] == users;
      registry := stored;
    }

    /** addUser: stores the token as given, without any check. */
    method AddUser(userId: int, token: AccessToken)
      modifies this
      ensures registry == old(registry)[userId := token]
    {
      registry := registry[userId := token];
    }

    method RemoveUser(userId: int)
      modifies this
      ensures registry == old(registry) - {userId}
    {
      registry := registry - {userId};
    }

    function GetScopesForUser(userId: int): (r: Result<seq<string>, AuthError>)
      reads this
      ensures r.Ok? <==> userId in registry
      ensures r.Ok? ==> r.value == registry[userId].scopes.GetOr([])
      ensures r.Err? ==> r.error == UnregisteredUser(None, NotFoundMessage(userId, "RefreshingAuthProvider"))
    {
      if userId in registry then Ok(registry[userId].scopes.GetOr([]))
      else Err(UnregisteredUser(None, NotFoundMessage(userId, "RefreshingAuthProvider")))
    }
  }

  /** A token as a static user supplies it: only the access token is
      required. */
  datatype StaticToken = StaticToken(
    accessToken: string,
    refreshToken: Option<string>,
    expiresIn: Option<int>,
    obtainmentTimestamp: Option<int>,
    scopes: Option<seq<string>>)

  datatype StaticAuthUser = StaticAuthUser(userId: int, token: StaticToken)

  /** The constructor's mapping: missing fields default to '', 0 and 0. */
  function WithDefaults(user: StaticAuthUser): (a: AuthUser)
    ensures a.userId == user.userId && a.token.accessToken == user.token.accessToken
    ensures a.token.refreshToken == user.token.refreshToken.GetOr("")
    ensures a.token.expiresIn == user.token.expiresIn.GetOr(0)
    ensures a.token.obtainmentTimestamp == user.token.obtainmentTimestamp.GetOr(0)
    ensures a.token.scopes == user.token.scopes
  {
    AuthUser(user.userId, AccessToken(user.token.accessToken, user.token.refreshToken.GetOr(""),
      user.token.expiresIn.GetOr(0), user.token.obtainmentTimestamp.GetOr(0), user.token.scopes))
  }

  function AllWithDefaults(users: seq<StaticAuthUser>): (r: seq<AuthUser>)
    ensures |r| == |users|
    ensures forall i :: 0 <= i < |users| ==> r[i] == WithDefaults(users[i])
  {
    seq(|users|, i requires 0 <= i < |users| => WithDefaults(users[i]))
  }

  /** The static provider of the earlier generation: the base registry
      filled from a user list, answering lookups from it. */
  class LegacyStaticAuthProvider {
    const base: BaseAuthProvider

    constructor(clientId: string, users: seq<StaticAuthUser>)
      ensures fresh(base) && base.clientId == clientId
      ensures base.registry == RegistryFrom(AllWithDefaults(users))
    {
      base := new BaseAuthProvider(clientId, AllWithDefaults(users));
    }

    /** _doGetAccessToken: the stored token, scopes permitting; a stored
        entry with an empty access token is a plain error. */
    function DoGetAccessToken(userId: int, requested: Option<seq<string>>): (r: Result<AccessToken, AuthError>)
      reads base
      ensures userId !in base.registry ==> r == Err(UnregisteredUser(None, NotFoundMessage(userId, "StaticAuthProvider")))
      ensures userId in base.registry && base.registry[userId].accessToken == "" ==>
        r == Err(NoTokenFound("No token found for user " + IntToDecimal(userId)))
      ensures r.Ok? <==>
        userId in base.registry && base.registry[userId].accessToken != "" &&
        (base.registry[userId].scopes.None? || CompareScopes(base.registry[userId].scopes.value, requested, None).Pass?)
      ensures r.Ok? ==> r.value == base.registry[userId]
    {
      if userId in base.registry then
        var token := base.registry[userId];
        if token.accessToken != "" then
          if token.scopes.Some? && CompareScopes(token.scopes.value, requested, None).Fail? then
            Err(CompareScopes(token.scopes.value, requested, None).error)
          else Ok(token)
        else Err(NoTokenFound("No token found for user " + IntToDecimal(userId)))
      else Err(UnregisteredUser(None, NotFoundMessage(userId, "StaticAuthProvider")))
    }

    /** getAccessTokenForUser of the base class: the subclass's answer,
        unchanged. */
    method GetAccessTokenForUser(userId: int, requested: Option<seq<string>>) returns (r: Result<AccessToken, AuthError>)
      ensures r == DoGetAccessToken(userId, requested)
    {
      r := DoGetAccessToken(userId, requested);
    }
  }

  /** A user listed twice at construction is served the later token. */
  method LaterStaticEntryWins(clientId: string, userId: int, first: StaticToken, second: StaticToken)
    returns (got: Result<AccessToken, AuthError>)
    requires second.accessToken != "" && second.scopes.None?
    ensures got == Ok(WithDefaults(StaticAuthUser(userId, second)).token)
  {
    var users := [StaticAuthUser(userId, first), StaticAuthUser(userId, second)];
    var p := new LegacyStaticAuthProvider(clientId, users);
    RegistryFromLastEntryWins(AllWithDefaults(users), 1);
    got := p.GetAccessTokenForUser(userId, None);
  }

  /** How the earlier getAccessTokenForUser proceeds from the state it
      finds; tokens are returned untagged. */
  datatype LegacyLookup =
    | Ready(token: AccessToken)
    | Failed(error: AuthError)
    | JoinRefresh
    | StartRefresh(existingScopes: Option<seq<string>>)

  const InvalidIdentityMessage := "The token is invalid"

  class LegacyRefreshingAuthProvider {
    const config: RefreshingAuth.RefreshingAuthProviderConfig
    var registry: map<int, AccessToken>
    var pending: map<int, RefreshingAuth.PendingRefresh>
    var refreshEvents: seq<RefreshingAuth.RefreshEvent>
    var calls: seq<RefreshingAuth.OutgoingCall>
    var nextTicket: nat

    ghost predicate Valid()
      reads this
    {
      forall id :: id in pending ==> pending[id].ticket < nextTicket
    }

    constructor(config: RefreshingAuth.RefreshingAuthProviderConfig)
      ensures this.config == config && Valid()
      ensures registry == map[] && pending == map[] && refreshEvents == [] && calls == []
    {
      this.config := config;
      registry := map[];
      pending := map[];
      refreshEvents := [];
      calls := [];
      nextTicket := 0;
    }

    function HasUser(userId: int): (b: bool)
      reads this
      ensures b <==> userId in registry
    {
      userId in registry
    }

    /** addUser: stores the token as given, without any check. */
    method AddUser(userId: int, token: AccessToken)
      modifies this
      ensures registry == old(registry)[userId := token]
      ensures pending == old(pending) && refreshEvents == old(refreshEvents) && calls == old(calls)
      ensures nextTicket == old(nextTicket)
    {
      registry := registry[userId := token];
    }

    /** addUserForToken: the token's scopes must include the configured
        ones; a token with a refresh token that is NOT expired at `now` is
        refreshed with the configured scopes; any identity failure becomes
        InvalidTokenError; the user is stored and `onRefresh` emitted after
        a refresh. */
    method AddUserForToken(token: AccessToken, now: int,
                           refreshAnswer: Result<AccessTokenData, Transform.ApiCallError>, refreshedAt: int,
                           identityAnswer: Result<int, Transform.ApiCallError>)
      returns (r: Outcome<AuthError>)
      requires Valid()
      modifies this
      ensures Valid()
      ensures token.scopes.Some? && CompareScopes(token.scopes.value, config.scopes, None).Fail? ==>
        r == CompareScopes(token.scopes.value, config.scopes, None) && calls == old(calls)
      ensures r.Pass? <==>
        (token.scopes.None? || CompareScopes(token.scopes.value, config.scopes, None).Pass?) &&
        (token.refreshToken == "" || IsExpired(token, now) || refreshAnswer.Ok?) && identityAnswer.Ok?
      ensures token.scopes.None? || CompareScopes(token.scopes.value, config.scopes, None).Pass? ==>
        (token.refreshToken != "" && !IsExpired(token, now) && refreshAnswer.Err? ==>
          r == Fail(RequestFailed(refreshAnswer.error))) &&
        ((token.refreshToken == "" || IsExpired(token, now) || refreshAnswer.Ok?) && identityAnswer.Err? ==>
          r == Fail(InvalidToken(None, InvalidIdentityMessage)))
      ensures r.Pass? ==>
        var refreshes := token.refreshToken != "" && !IsExpired(token, now);
        identityAnswer.Ok? && (!refreshes || refreshAnswer.Ok?) &&
        var stored := if refreshes then CreateAccessTokenFromData(refreshAnswer.value, refreshedAt) else token;
        registry == old(registry)[identityAnswer.value := stored] &&
        refreshEvents == old(refreshEvents) + (if refreshes then [RefreshingAuth.RefreshEvent(identityAnswer.value, stored)] else []) &&
        calls == old(calls)
          + (if refreshes then [RefreshingAuth.OutgoingCall(RefreshRequest(config.clientId, config.clientSecret, token.refreshToken, config.scopes), None)] else [])
          + [RefreshingAuth.OutgoingCall(RefreshingAuth.IdentityCall, Some(stored.accessToken))]
      ensures r.Fail? ==> registry == old(registry) && refreshEvents == old(refreshEvents)
      ensures pending == old(pending) && nextTicket == old(nextTicket)
    {
      if token.scopes.Some? {
        r := CompareScopes(token.scopes.value, config.scopes, None);
        if r.Fail? {
          return;
        }
      }
      var current := token;
      var isTokenRefreshed := false;
      if token.refreshToken != "" && !IsExpired(current, now) {
        calls := calls + [RefreshingAuth.OutgoingCall(RefreshRequest(config.clientId, config.clientSecret, current.refreshToken, config.scopes), None)];
        var refreshed := TokenFromEndpoint(refreshAnswer, refreshedAt);
        if refreshed.Err? {
          return Fail(refreshed.error);
        }
        current := refreshed.value;
        isTokenRefreshed := true;
      }
      calls := calls + [RefreshingAuth.OutgoingCall(RefreshingAuth.IdentityCall, Some(current.accessToken))];
      if identityAnswer.Err? {
        return Fail(InvalidToken(None, InvalidIdentityMessage));
      }
      AddUser(identityAnswer.value, current);
      if isTokenRefreshed {
        refreshEvents := refreshEvents + [RefreshingAuth.RefreshEvent(identityAnswer.value, current)];
      }
      r := Pass;
    }

    /** addUserForCode: requires a redirect URI; exchanges the code, asks
        for the user's identity with the new token, stores it unchecked and
        emits `onRefresh`. */
    method AddUserForCode(code: string, exchangeAnswer: Result<AccessTokenData, Transform.ApiCallError>, now: int,
                          identityAnswer: Result<int, Transform.ApiCallError>)
      returns (r: Outcome<AuthError>)
      requires Valid()
      modifies this
      ensures Valid()
      ensures (config.redirectUri.None? || config.redirectUri == Some("")) ==>
        r == Fail(MissingRedirectUri(RedirectUriMessage)) && calls == old(calls)
      ensures r.Pass? <==> config.redirectUri.Some? && config.redirectUri != Some("") && exchangeAnswer.Ok? && identityAnswer.Ok?
      ensures r.Pass? ==>
        var token := CreateAccessTokenFromData(exchangeAnswer.value, now);
        registry == old(registry)[identityAnswer.value := token] &&
        refreshEvents == old(refreshEvents) + [RefreshingAuth.RefreshEvent(identityAnswer.value, token)]
      ensures config.redirectUri.Some? && config.redirectUri != Some("") ==>
        |calls| > |old(calls)| && calls[..|old(calls)|] == old(calls) &&
        calls[|old(calls)|] ==
          RefreshingAuth.OutgoingCall(ExchangeCodeRequest(config.clientId, config.clientSecret, config.redirectUri.value, code), None) &&
        (exchangeAnswer.Err? ==> r == Fail(RequestFailed(exchangeAnswer.error)) && |calls| == |old(calls)| + 1) &&
        (exchangeAnswer.Ok? ==>
          |calls| == |old(calls)| + 2 &&
          calls[|old(calls)| + 1] == RefreshingAuth.OutgoingCall(RefreshingAuth.IdentityCall, Some(exchangeAnswer.value.accessToken)) &&
          (identityAnswer.Err? ==> r == Fail(RequestFailed(identityAnswer.error))))
      ensures r.Fail? ==> registry == old(registry) && refreshEvents == old(refreshEvents)
      ensures pending == old(pending) && nextTicket == old(nextTicket)
    {
      if config.redirectUri.None? || config.redirectUri == Some("") {
        return Fail(MissingRedirectUri(RedirectUriMessage));
      }
      calls := calls + [RefreshingAuth.OutgoingCall(ExchangeCodeRequest(config.clientId, config.clientSecret, config.redirectUri.value, code), None)];
      var exchanged := TokenFromEndpoint(exchangeAnswer, now);
      if exchanged.Err? {
        return Fail(exchanged.error);
      }
      calls := calls + [RefreshingAuth.OutgoingCall(RefreshingAuth.IdentityCall, Some(exchanged.value.accessToken))];
      if identityAnswer.Err? {
        return Fail(RequestFailed(identityAnswer.error));
      }
      AddUser(identityAnswer.value, exchanged.value);
      refreshEvents := refreshEvents + [RefreshingAuth.RefreshEvent(identityAnswer.value, exchanged.value)];
      r := Pass;
    }

    method RemoveUser(userId: int)
      modifies this
      ensures registry == old(registry) - {userId}
      ensures pending == old(pending) && refreshEvents == old(refreshEvents) && calls == old(calls)
      ensures nextTicket == old(nextTicket)
    {
      registry := registry - {userId};
    }

    function GetScopesForUser(userId: int): (r: Result<seq<string>, AuthError>)
      reads this
      ensures r.Ok? <==> userId in registry
      ensures r.Ok? ==> r.value == registry[userId].scopes.GetOr([])
      ensures r.Err? ==> r.error == UnregisteredUser(None, NotFoundMessage(userId, "StaticAuthProvider"))
    {
      if userId in registry then Ok(registry[userId].scopes.GetOr([]))
      else Err(UnregisteredUser(None, NotFoundMessage(userId, "StaticAuthProvider")))
    }

    /** getAccessTokenForUser up to its first await, at time `now`. */
    function LookupAccessToken(userId: int, requested: Option<seq<string>>, now: int): (r: LegacyLookup)
      reads this
      ensures userId in pending && pending[userId].InFlight? ==> r == JoinRefresh
      ensures userId in pending && pending[userId].Rejected? ==> r == Failed(pending[userId].cause)
      ensures userId !in pending && userId !in registry ==>
        r == Failed(UnregisteredUser(None, NotFoundMessage(userId, "RefreshingAuthProvider")))
      ensures r.Ready? <==>
        userId !in pending && userId in registry &&
        registry[userId].accessToken != "" && !IsExpired(registry[userId], now) &&
        (registry[userId].scopes.None? || CompareScopes(registry[userId].scopes.value, requested, None).Pass?)
      ensures r.Ready? ==> r.token == registry[userId]
      ensures r.StartRefresh? <==>
        userId !in pending && userId in registry &&
        (registry[userId].accessToken == "" || IsExpired(registry[userId], now))
      ensures r.StartRefresh? ==> r.existingScopes == registry[userId].scopes
    {
      if userId in pending then
        match pending[userId]
        case InFlight(_, _) => JoinRefresh
        case Rejected(_, cause) => Failed(cause)
      else if userId !in registry then
        Failed(UnregisteredUser(None, NotFoundMessage(userId, "RefreshingAuthProvider")))
      else
        var current := registry[userId];
        if current.accessToken != "" && !IsExpired(current, now) then
          if current.scopes.Some? && CompareScopes(current.scopes.value, requested, None).Fail? then
            Failed(CompareScopes(current.scopes.value, requested, None).error)
          else Ready(current)
        else StartRefresh(current.scopes)
    }

    /** refreshAccessTokenForUser up to its await. */
    method BeginRefresh(userId: int) returns (r: Result<nat, AuthError>)
      requires Valid()
      modifies this
      ensures Valid()
      ensures userId !in old(registry) ==>
        r == Err(UnregisteredUser(None, NotFoundMessage(userId, "RefreshingAuthProvider"))) && unchanged(this)
      ensures userId in old(registry) && old(registry)[userId].refreshToken == "" ==>
        r == Err(InvalidToken(None, RefreshTokenNotSetMessage(userId)))
        && unchanged(this)
      ensures r.Ok? <==> userId in old(registry) && old(registry)[userId].refreshToken != ""
      ensures r.Ok? ==>
        r.value == old(nextTicket) && nextTicket == old(nextTicket) + 1 &&
        pending == old(pending)[userId := RefreshingAuth.InFlight(r.value, old(registry)[userId].refreshToken)] &&
        calls == old(calls) + [RefreshingAuth.OutgoingCall(RefreshRequest(config.clientId, config.clientSecret, old(registry)[userId].refreshToken, None), None)] &&
        registry == old(registry) && refreshEvents == old(refreshEvents)
    {
      if userId !in registry {
        return Err(UnregisteredUser(None, NotFoundMessage(userId, "RefreshingAuthProvider")));
      }
      var current := registry[userId];
      if current.refreshToken == "" {
        return Err(InvalidToken(None, RefreshTokenNotSetMessage(userId)));
      }
      calls := calls + [RefreshingAuth.OutgoingCall(RefreshRequest(config.clientId, config.clientSecret, current.refreshToken, None), None)];
      pending := pending[userId := RefreshingAuth.InFlight(nextTicket, current.refreshToken)];
      r := Ok(nextTicket);
      nextTicket := nextTicket + 1;
    }

    /** refreshAccessTokenForUser after its await succeeded: the new token
        is stored, announced and returned untagged. */
    method CompleteRefresh(userId: int, answer: AccessTokenData, now: int) returns (token: AccessToken)
      requires Valid()
      modifies this
      ensures Valid()
      ensures token == CreateAccessTokenFromData(answer, now)
      ensures pending == old(pending) - {userId}
      ensures registry == old(registry)[userId := token]
      ensures refreshEvents == old(refreshEvents) + [RefreshingAuth.RefreshEvent(userId, token)]
      ensures calls == old(calls) && nextTicket == old(nextTicket)
    {
      token := CreateAccessTokenFromData(answer, now);
      pending := pending - {userId};
      registry := registry[userId := token];
      refreshEvents := refreshEvents + [RefreshingAuth.RefreshEvent(userId, token)];
    }

    /** refreshAccessTokenForUser when its await failed: as in the later
        generation, the rejected promise stays stored. */
    method FailRefresh(userId: int, ticket: nat, cause: Transform.ApiCallError) returns (e: AuthError)
      requires Valid()
      modifies this
      ensures Valid()
      ensures e == RequestFailed(cause)
      ensures userId in old(pending) && old(pending)[userId].ticket == ticket ==>
        pending == old(pending)[userId := RefreshingAuth.Rejected(ticket, e)]
      ensures !(userId in old(pending) && old(pending)[userId].ticket == ticket) ==> pending == old(pending)
      ensures registry == old(registry) && refreshEvents == old(refreshEvents) && calls == old(calls)
      ensures nextTicket == old(nextTicket)
    {
      e := RequestFailed(cause);
      if userId in pending && pending[userId].ticket == ticket {
        pending := pending[userId := RefreshingAuth.Rejected(ticket, e)];
      }
    }

    /** getAccessTokenForUser after its own refresh: the earlier scopes are
        written onto the refreshed token object itself, which is also the
        object the registry holds (while it still holds it), then checked. */
    method ScopeRefreshedToken(userId: int, refreshed: AccessToken, existingScopes: Option<seq<string>>,
                               requested: Option<seq<string>>) returns (r: Result<AccessToken, AuthError>)
      modifies this
      ensures var withScopes := refreshed.(scopes := existingScopes);
        (userId in old(registry) && old(registry)[userId] == refreshed ==> registry == old(registry)[userId := withScopes]) &&
        (!(userId in old(registry) && old(registry)[userId] == refreshed) ==> registry == old(registry)) &&
        (r.Ok? ==> r.value == withScopes) &&
        (r.Ok? <==> existingScopes.None? || CompareScopes(existingScopes.value, requested, None).Pass?)
      ensures pending == old(pending) && refreshEvents == old(refreshEvents) && calls == old(calls)
      ensures nextTicket == old(nextTicket)
    {
      var token := refreshed.(scopes := existingScopes);
      if userId in registry && registry[userId] == refreshed {
        registry := registry[userId := token];
      }
      if token.scopes.Some? {
        var checked := CompareScopes(token.scopes.value, requested, None);
        if checked.Fail? {
          return Err(checked.error);
        }
      }
      r := Ok(token);
    }
  }

  /** After a lookup that refreshed an expired token, the earlier provider
      still reports the user's scopes, while the later one reports none. */
  method RefreshKeepsScopesOnlyInLegacy(config: RefreshingAuth.RefreshingAuthProviderConfig, userId: int,
                                        stored: AccessToken, now: int, answer: AccessTokenData, later: int)
    returns (legacyScopes: Result<seq<string>, AuthError>, currentScopes: Result<seq<string>, AuthError>)
    requires stored.accessToken != "" && stored.refreshToken != "" && IsExpired(stored, now)
    requires stored.scopes.Some? && CompareScopes(stored.scopes.value, config.scopes, Some(userId)).Pass?
    ensures legacyScopes == Ok(stored.scopes.value)
    ensures currentScopes == Ok([])
  {
    var earlier := new LegacyRefreshingAuthProvider(config);
    earlier.AddUser(userId, stored);
    var lookup := earlier.LookupAccessToken(userId, None, now);
    var started := earlier.BeginRefresh(userId);
    var refreshed := earlier.CompleteRefresh(userId, answer, later);
    var scoped := earlier.ScopeRefreshedToken(userId, refreshed, lookup.existingScopes, None);
    legacyScopes := earlier.GetScopesForUser(userId);

    var cur := new RefreshingAuth.RefreshingAuthProvider(config);
    var added := cur.AddUser(userId, stored);
    var curLookup := cur.LookupAccessToken(userId, None, now);
    var curStarted := cur.BeginRefresh(userId);
    var curRefreshed := cur.CompleteRefresh(userId, curStarted.value, answer, later);
    var curResult := RefreshingAuth.AfterOwnRefresh(curRefreshed, curLookup.previousScopes, None);
    currentScopes := cur.GetScopesForUser(userId);
  }
}
