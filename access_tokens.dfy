/** OAuth access tokens and their expiry. The older `AccessToken.ts` calls
    the scope list `scope`; the newer `access-token.ts` calls it `scopes`;
    both are the optional `scopes` field here. */
module AccessTokens {
  import opened Wrappers

  /** Times are epoch milliseconds, `expiresIn` is in seconds. */
  datatype AccessToken = AccessToken(
    accessToken: string,
    refreshToken: string,
    expiresIn: int,
    obtainmentTimestamp: int,
    scopes: Option<seq<string>>)

  /** `{ ...token, userId }`. */
  datatype AccessTokenWithUserId = AccessTokenWithUserId(userId: int, token: AccessToken)

  /** A JavaScript `Date`, by its epoch milliseconds. */
  datatype Date = Date(epochMilliseconds: int)

  /** getExpiryMilliseconds: the obtainment time plus the lifetime. */
  function ExpiryMilliseconds(token: AccessToken): int
  {
    token.obtainmentTimestamp + token.expiresIn * 1000
  }

  /** getTokenExpiryDate: the expiry as a date. */
  function TokenExpiryDate(token: AccessToken): (d: Date)
    ensures d.epochMilliseconds - token.obtainmentTimestamp == token.expiresIn * 1000
  {
    Date(ExpiryMilliseconds(token))
  }

  /** isAccessTokenExpired, with the clock reading `now` as a parameter: a
      token is expired once the time elapsed since it was obtained reaches
      its lifetime; no grace period is applied. */
  function IsExpired(token: AccessToken, now: int): (expired: bool)
    ensures expired <==> now - token.obtainmentTimestamp >= token.expiresIn * 1000
    ensures expired <==> now >= TokenExpiryDate(token).epochMilliseconds
  {
    now >= ExpiryMilliseconds(token)
  }

  /** Once expired, a token stays expired as the clock moves on. */
  lemma ExpiryIsPermanent(token: AccessToken, now: int, later: int)
    requires IsExpired(token, now) && now <= later
    ensures IsExpired(token, later)
  {
  }

  /** A token obtained at `now` with a positive lifetime is live for exactly
      that many seconds. */
  lemma LiveForItsLifetime(token: AccessToken, now: int)
    requires token.obtainmentTimestamp == now && token.expiresIn > 0
    ensures !IsExpired(token, now)
    ensures !IsExpired(token, now + token.expiresIn * 1000 - 1)
    ensures IsExpired(token, now + token.expiresIn * 1000)
  {
  }

  /** A token whose lifetime is zero is expired from the moment it is
      obtained (the static provider stores such tokens). */
  lemma ZeroLifetimeExpiredAtOnce(token: AccessToken, now: int)
    requires token.expiresIn == 0 && now >= token.obtainmentTimestamp
    ensures IsExpired(token, now)
  {
  }

  /** Scopes and the token strings play no part in expiry. */
  lemma ExpiryIgnoresScopes(token: AccessToken, scopes: Option<seq<string>>, accessToken: string, now: int)
    ensures ExpiryMilliseconds(token.(scopes := scopes, accessToken := accessToken)) == ExpiryMilliseconds(token)
    ensures IsExpired(token.(scopes := scopes, accessToken := accessToken), now) == IsExpired(token, now)
  {
  }
}

/** The errors raised by the auth package. */
module AuthErrors {
  import opened Wrappers
  import opened Decimal
  import Transform

  datatype AuthError =
    | UnregisteredUser(userId: Option<int>, message: string)
    | InvalidToken(userId: Option<int>, message: string)
    | MissingScope(userId: Option<int>, scopes: seq<string>, message: string)
    | MissingRedirectUri(message: string)
    | NoTokenFound(message: string)
    | RequestFailed(cause: Transform.ApiCallError)

  /** `${userId}` for a number or for `undefined`. */
  function UserLabel(userId: Option<int>): string
  {
    match userId
    case Some(id) => IntToDecimal(id)
    case None => "undefined"
  }

  const InvalidTokenTail := "\" is invalid. Make sure it's a non-empty string."

  function InvalidAccessTokenMessage(userId: Option<int>): string
  {
    "The access token of user \"" + UserLabel(userId) + InvalidTokenTail
  }

  function InvalidRefreshTokenMessage(userId: Option<int>): string
  {
    "The refresh token of user \"" + UserLabel(userId) + InvalidTokenTail
  }

  const RedirectUriMessage := "Exchanging authorization code requires \"redirectUri\" option to be specified"
}
