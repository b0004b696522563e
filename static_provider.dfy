/** The static auth provider: access tokens registered by hand, never
    refreshed. */
module StaticAuth {
  import opened Wrappers
  import opened Decimal
  import opened AccessTokens
  import opened AuthErrors
  import opened AuthHelpers

  const UnregisteredTail := "\" could not be located in the authentication provider registry. "
    + "Please add the user first by using addUser method."

  function UnregisteredMessage(userId: int): string
  {
    "User \"" + IntToDecimal(userId) + UnregisteredTail
  }

  class StaticAuthProvider {
    const clientId: string
    /** The scopes every registered user's token must carry, if given. */
    const scopes: Option<seq<string>>
    var registry: map<int, AccessToken>

    /** No entry is stored without an access token. */
    ghost predicate Valid()
      reads this
    {
      forall id :: id in registry ==> registry[id].accessToken != ""
    }

    constructor(clientId: string, scopes: Option<seq<string>>)
      ensures this.clientId == clientId && this.scopes == scopes
      ensures registry == map[] && Valid()
    {
      this.clientId := clientId;
      this.scopes := scopes;
      registry := map[];
    }

    function HasUser(userId: int): (b: bool)
      reads this
      ensures b <==> userId in registry
    {
      userId in registry
    }

    /** addUser: an empty access token is refused; given scopes must include
        the provider's scopes; the stored token has no refresh token, a zero
        lifetime and is obtained `now`. */
    method AddUser(userId: int, accessToken: string, scopes: Option<seq<string>>, now: int) returns (r: Outcome<AuthError>)
      modifies this
      ensures accessToken == "" ==>
        r == Fail(InvalidToken(Some(userId), InvalidAccessTokenMessage(Some(userId))))
      ensures accessToken != "" && scopes.Some? ==>
        r == CompareScopes(scopes.value, this.scopes, Some(userId))
      ensures accessToken != "" && scopes.None? ==> r.Pass?
      ensures r.Pass? ==> registry == old(registry)[userId := AccessToken(accessToken, "", 0, now, scopes)]
      ensures r.Fail? ==> registry == old(registry)
      ensures old(Valid()) ==> Valid()
    {
      if accessToken == "" {
        return Fail(InvalidToken(Some(userId), InvalidAccessTokenMessage(Some(userId))));
      }
      if scopes.Some? {
        r := CompareScopes(scopes.value, this.scopes, Some(userId));
        if r.Fail? {
          return;
        }
      }
      registry := registry[userId := AccessToken(accessToken, "", 0, now, scopes)];
      r := Pass;
    }

    method RemoveUser(userId: int)
      modifies this
      ensures registry == old(registry) - {userId}
      ensures old(Valid()) ==> Valid()
    {
      registry := registry - {userId};
    }

    /** getScopesForUser: the stored scopes, [] when none were given. */
    function GetScopesForUser(userId: int): (r: Result<seq<string>, AuthError>)
      reads this
      ensures r.Ok? <==> userId in registry
      ensures r.Ok? ==> r.value == registry[userId].scopes.GetOr([])
      ensures r.Err? ==> r.error == UnregisteredUser(Some(userId), UnregisteredMessage(userId))
    {
      if userId in registry then Ok(registry[userId].scopes.GetOr([]))
      else Err(UnregisteredUser(Some(userId), UnregisteredMessage(userId)))
    }

    /** getAccessTokenForUser: the stored token tagged with its user, after
        checking that the token carries every requested scope (when its
        scopes are known). Expiry is never consulted. */
    function GetAccessTokenForUser(userId: int, requested: Option<seq<string>>): (r: Result<AccessTokenWithUserId, AuthError>)
      reads this
      ensures userId !in registry ==> r == Err(UnregisteredUser(Some(userId), UnregisteredMessage(userId)))
      ensures userId in registry && registry[userId].accessToken == "" ==>
        r == Err(InvalidToken(Some(userId), InvalidAccessTokenMessage(Some(userId))))
      ensures r.Ok? <==>
        userId in registry && registry[userId].accessToken != "" &&
        (registry[userId].scopes.None? || CompareScopes(registry[userId].scopes.value, requested, Some(userId)).Pass?)
      ensures r.Ok? ==> r.value == AccessTokenWithUserId(userId, registry[userId])
      ensures Valid() ==> !(r.Err? && r.error.InvalidToken?)
    {
      if userId !in registry then Err(UnregisteredUser(Some(userId), UnregisteredMessage(userId)))
      else
        var token := registry[userId];
        if token.accessToken == "" then Err(InvalidToken(Some(userId), InvalidAccessTokenMessage(Some(userId))))
        else if token.scopes.Some? && CompareScopes(token.scopes.value, requested, Some(userId)).Fail? then
          Err(CompareScopes(token.scopes.value, requested, Some(userId)).error)
        else Ok(AccessTokenWithUserId(userId, token))
    }
  }

  /** A user added with an access token can be looked up at any later time:
      the provider hands back exactly that token, scopes permitting, and
      never refreshes it. */
  method AddThenGet(clientId: string, configured: Option<seq<string>>, userId: int, accessToken: string,
                    scopes: Option<seq<string>>, now: int, requested: Option<seq<string>>)
    returns (added: Outcome<AuthError>, got: Result<AccessTokenWithUserId, AuthError>)
    ensures added.Pass? <==> accessToken != "" && (scopes.None? || CompareScopes(scopes.value, configured, Some(userId)).Pass?)
    ensures added.Fail? ==> got == Err(UnregisteredUser(Some(userId), UnregisteredMessage(userId)))
    ensures added.Pass? && (scopes.None? || CompareScopes(scopes.value, requested, Some(userId)).Pass?) ==>
      got == Ok(AccessTokenWithUserId(userId, AccessToken(accessToken, "", 0, now, scopes)))
    ensures added.Pass? && scopes.Some? && CompareScopes(scopes.value, requested, Some(userId)).Fail? ==>
      got == Err(CompareScopes(scopes.value, requested, Some(userId)).error)
  {
    var p := new StaticAuthProvider(clientId, configured);
    added := p.AddUser(userId, accessToken, scopes, now);
    got := p.GetAccessTokenForUser(userId, requested);
  }
}
