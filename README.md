# Donation Alerts SDK — a verified model of its core

This project models the core of the Donation Alerts TypeScript SDK in Dafny.
Every awaited network answer and every reading of the clock is a parameter.
The model covers:

- **User ids.** `extractUserId` and `extractUserName`, including the
  regular expression whose `lastIndex` survives between calls.
- **Access tokens and the auth helpers.** Expiry, the scope check, and the
  two token-endpoint requests: the refresh grant of RFC 6749 section 6 and
  the authorization-code grant of RFC 6749 section 4.1.3.
- **Auth providers, in both generations.** The static provider, the
  refreshing provider (a registry map plus a map of pending refreshes,
  with each awaited refresh split into begin / complete / fail steps),
  and the earlier base, static and refreshing providers.
- **The HTTP layer.** Url resolution, request assembly (headers, body
  choice, the Bearer header of RFC 6750 section 2.1), `HttpError`, and
  response decoding (204 No Content, RFC 9110 section 15.3.5).
- **The API client's `callApi`.** Resolve the user, ask the provider,
  dispatch, refresh and retry once on a 401 (RFC 9110 section 15.5.2),
  then raise an error or decode. It also models the choice of rate-limiter
  configuration.
- **The paginator.** A class with the paginator's fields, driven by
  `getPage` / `getNext` / `getPrev` / `getAll`.
- **The request encoders.** The SHA-256 signature preimage (the hash
  itself stays symbolic), merchandise forms in both generations, custom
  alerts, Centrifugo subscriptions and the donations endpoint.
- **The events client.** Its per-user registry of clients.

Request bodies and queries are kept as JSON-like value trees (`Values`).
The form and query encoders of the `qs` library are not modelled, and
neither is JSON text.

## Model

| member | source | states |
|---|---|---|
| UserResolvers.ExtractUserId | packages/common/src/user-resovlers.ts:52-72 | a number (bare or as `id`) is returned unchanged; a string (bare or as `id`) resolves iff it is all ASCII digits, to its base-10 value; anything else is the TypeError 'User ID must be integer or numeric string' |
| UserResolvers.ParseNumericId | packages/common/src/user-resovlers.ts:56-60 | succeeds iff the text is a digit string, with its decimal value, else the TypeError |
| UserResolvers.DecimalIdResolves | packages/common/src/user-resovlers.ts:55-57 | the decimal text of every natural number resolves back to that number, bare or in `id` |
| UserResolvers.NegativeTextRejected | packages/common/src/user-resovlers.ts:56-60 | the text of a negative number is rejected (the sign is not a digit) |
| UserResolvers.ExtractUserName | packages/common/src/user-resovlers.ts:79-81 | a string is the name itself; an object gives its `name` |
| UserResolvers.ScanFrom | packages/common/src/user-resovlers.ts:1 | a scan for the anchored pattern from a position finds a match iff it starts at 0 on a digit string, ending at the string's end |
| UserResolvers.GlobalRegexTest | packages/common/src/user-resovlers.ts:1 | `test` on the global regex matches iff lastIndex is 0 and the text is all digits; a match leaves lastIndex at the text's length, a miss resets it to 0 |
| UserResolvers.ExtractUserIdAsWritten | packages/common/src/user-resovlers.ts:1-72 | as written, with the shared lastIndex: numbers are unaffected; with lastIndex 0 the result equals ExtractUserId; with lastIndex > 0 every text id is rejected |
| UserResolvers.SecondNumericIdRejected | packages/common/src/user-resovlers.ts:1-56 | resolving '123' and then '456' rejects '456', which ExtractUserId accepts |
| Decimal.NatToDecimal | packages/common/src/user-resovlers.ts:57 | the text of a number is a digit string without a leading zero |
| Decimal.IntToDecimal | packages/events/src/events-client.ts:73 | the text of an integer is non-empty and starts with '-' iff the integer is negative |
| Decimal.DecimalRoundTrip | packages/common/src/user-resovlers.ts:57 | parsing the decimal text of n gives n |
| Decimal.DecimalInjective | packages/common/src/user-resovlers.ts:57 | different numbers have different decimal texts |
| Decimal.CanonicalDigitsRoundTrip | packages/common/src/user-resovlers.ts:56-57 | a digit string without a leading zero is the text of its own value |
| AccessTokens.TokenExpiryDate | packages/auth/src/access-token.ts:49-62 | the expiry instant lies expiresIn·1000 ms after the obtainment timestamp |
| AccessTokens.IsExpired | packages/auth/src/access-token.ts:75-77 | expired iff now ≥ the expiry instant; the boundary instant counts as expired and there is no grace period |
| AccessTokens.ExpiryIsPermanent | packages/auth/src/access-token.ts:76 | a token expired at `now` is expired at every later time |
| AccessTokens.LiveForItsLifetime | packages/auth/src/access-token.ts:49-77 | a token just obtained with a positive lifetime is live until the last millisecond before its lifetime ends and expired from then on |
| AccessTokens.ZeroLifetimeExpiredAtOnce | packages/auth/src/AccessToken.ts:36-58 | a token with lifetime 0 is expired from the moment it is obtained |
| AccessTokens.ExpiryIgnoresScopes | packages/auth/src/AccessToken.ts:18-38 | scopes and the token strings play no part in expiry |
| AuthHelpers.MissingScopesMembership | packages/auth/src/helpers.ts:91-93 | a scope is reported missing iff it is requested and not granted |
| AuthHelpers.MissingScopesEmpty | packages/auth/src/helpers.ts:93 | nothing is missing iff every requested scope is granted |
| AuthHelpers.CompareScopes | packages/auth/src/helpers.ts:89-97 | no requested scopes means no error; otherwise it fails iff some requested scope is not granted, with MissingScopeError listing every requested scope joined by ', ' |
| AuthHelpers.ScopeVerdictIsSetBased | packages/auth/src/helpers.ts:91-93 | reordering or duplicating either list does not change the verdict |
| AuthHelpers.PassCarriesOver | packages/auth/src/helpers.ts:91-93 | granting more or requesting fewer scopes keeps a passing check passing |
| AuthHelpers.CreateAccessTokenFromData | packages/auth/src/helpers.ts:12-19 | copies the three endpoint fields, stamps `now`, sets no scopes; a positive lifetime is not yet expired |
| AuthHelpers.ExchangeCodeReachesTokenEndpoint | packages/auth/src/helpers.ts:29-49 | the code exchange is an unauthenticated GET to the OAuth 'token' endpoint whose form carries grant_type 'authorization_code', the client secret and the code |
| AuthHelpers.RefreshReachesTokenEndpoint | packages/auth/src/helpers.ts:60-81 | the refresh is an unauthenticated form POST to the OAuth 'token' endpoint with grant_type 'refresh_token', the refresh token, the client id, and scope [] when no scopes are given |
| AuthHelpers.TokenFromEndpoint | packages/auth/src/helpers.ts:35-80 | a successful answer becomes CreateAccessTokenFromData of it; a failed call is passed on as the error |
| StaticAuth.StaticAuthProvider.constructor | packages/auth/src/providers/static-auth-provider.ts:24-27 | starts with an empty registry and keeps the client id and scopes |
| StaticAuth.StaticAuthProvider.HasUser | packages/auth/src/providers/static-auth-provider.ts:39-41 | true iff the id is registered |
| StaticAuth.StaticAuthProvider.AddUser | packages/auth/src/providers/static-auth-provider.ts:55-76 | an empty access token is InvalidTokenError with the id; given scopes are checked against the provider's; on success the entry {token, '', 0, now, scopes} is stored (overwriting) and nothing else changes; on failure the registry is unchanged |
| StaticAuth.StaticAuthProvider.RemoveUser | packages/auth/src/providers/static-auth-provider.ts:83-85 | deletes only that id; an absent id is a no-op |
| StaticAuth.StaticAuthProvider.GetScopesForUser | packages/auth/src/providers/static-auth-provider.ts:87-98 | UnregisteredUserError with the id for an absent user, else the stored scopes or [] |
| StaticAuth.StaticAuthProvider.GetAccessTokenForUser | packages/auth/src/providers/static-auth-provider.ts:100-124 | absent user → UnregisteredUserError; empty token → InvalidTokenError; otherwise the stored token tagged with the id iff its scopes (when known) cover the requested ones; expiry is never consulted and the registry is only read |
| StaticAuth.AddThenGet | packages/auth/src/providers/static-auth-provider.ts:55-124 | a user added at `now` is later served exactly the stored token, scopes permitting; a refused add leaves the user unregistered |
| RefreshingAuth.ValidateToken | packages/auth/src/providers/refreshing-auth-provider.ts:277-291 | passes iff both tokens are non-empty; the access token is checked first, each failure with its own message |
| RefreshingAuth.AdmissionCheck | packages/auth/src/providers/refreshing-auth-provider.ts:93-100 | addUser's checks: validation, then the configured scopes against the token's scopes when it has any |
| RefreshingAuth.AfterOwnRefresh | packages/auth/src/providers/refreshing-auth-provider.ts:232-239 | the refreshed token is returned with the old token's scopes re-attached, iff those scopes cover the requested ones |
| RefreshingAuth.ScopeFirstCheck | packages/auth/src/providers/refreshing-auth-provider.ts:136-140 | checking the scopes before addUser's own checks passes exactly when addUser's checks pass; a scope failure is the error reported first, else the validation error |
| RefreshingAuth.RefreshingAuthProvider.constructor | packages/auth/src/providers/refreshing-auth-provider.ts:69-72 | empty registry, no pending refresh, no events, no calls |
| RefreshingAuth.RefreshingAuthProvider.HasUser | packages/auth/src/providers/refreshing-auth-provider.ts:83-85 | true iff the id is registered |
| RefreshingAuth.RefreshingAuthProvider.AddUser | packages/auth/src/providers/refreshing-auth-provider.ts:93-104 | succeeds iff the admission check passes, then stores the token (overwriting) and returns it tagged with the id; on failure the registry is unchanged; pending refreshes, events and calls are untouched |
| RefreshingAuth.RefreshingAuthProvider.AddUserForToken | packages/auth/src/providers/refreshing-auth-provider.ts:114-147 | succeeds iff validation passes, the token to add is obtained (as written: the given one if it is expired, else the answer of a refresh with the configured scopes), the identity call answers, and addUser's checks pass on that token; otherwise it fails with the validation error, the refresh error, RequestFailed of the identity error, or the scope-first check's error, in that order; the identity call carries the token's access token; on success the token is stored under the identity's id and onRefresh is emitted exactly when it refreshed |
| RefreshingAuth.RefreshingAuthProvider.AddUserForCode | packages/auth/src/providers/refreshing-auth-provider.ts:155-182 | fails before any call without a redirect URI; otherwise the code exchange is sent first and its failure is returned; after it the identity call carries the new access token and its failure becomes RequestFailed; success holds iff addUser's checks pass on the new token with the given scopes, the scope-first check's error otherwise; on success the token is stored under the identity's id and onRefresh emitted once |
| RefreshingAuth.RefreshingAuthProvider.RemoveUser | packages/auth/src/providers/refreshing-auth-provider.ts:189-191 | deletes only the registry entry; pending refreshes stay |
| RefreshingAuth.RefreshingAuthProvider.GetScopesForUser | packages/auth/src/providers/refreshing-auth-provider.ts:193-204 | UnregisteredUserError for an absent id, else the stored scopes or [] |
| RefreshingAuth.RefreshingAuthProvider.LookupAccessToken | packages/auth/src/providers/refreshing-auth-provider.ts:206-233 | a pending refresh is joined (by its ticket) before any other check; then an absent user is UnregisteredUserError; a non-empty, unexpired token is returned iff the scope check passes; an empty or expired one starts a refresh remembering the old scopes |
| RefreshingAuth.RefreshingAuthProvider.ResumeJoined | packages/auth/src/providers/refreshing-auth-provider.ts:209-211 | a lookup that joined a refresh gets nothing until that refresh settles, then its token as stored, tagged with the user id, or its failure |
| RefreshingAuth.RefreshingAuthProvider.BeginRefresh | packages/auth/src/providers/refreshing-auth-provider.ts:242-266 | absent user → UnregisteredUserError, no refresh token → InvalidTokenError, in both cases with nothing changed; otherwise the refresh grant is sent and its promise stored before the await |
| RefreshingAuth.RefreshingAuthProvider.CompleteRefresh | packages/auth/src/providers/refreshing-auth-provider.ts:268-274 | the refresh's promise settles with the new token (without scopes); the pending entry is removed, the registry entry replaced by that token and onRefresh emitted once |
| RefreshingAuth.RefreshingAuthProvider.FailRefresh | packages/auth/src/providers/refreshing-auth-provider.ts:261-268 | as written: the promise settles with the failure and stays stored as rejected; nothing else changes |
| RefreshingAuth.RefreshingAuthProvider.AbandonRefresh | packages/auth/src/providers/refreshing-auth-provider.ts:261-269 | corrected: the promise settles with the failure and its pending entry is removed; nothing else changes |
| RefreshingAuth.ConcurrentLookupsShareOneRefresh | packages/auth/src/providers/refreshing-auth-provider.ts:206-274 | two lookups of an expired token while one refresh is awaited cause one refresh call and one onRefresh; the joining lookup gets the new token as stored, scope-less and unchecked; the starting lookup gets it with the stored scopes re-attached, and fails iff those miss a requested scope; without stored scopes both get the same token |
| RefreshingAuth.RemovalDuringRefreshIsUndone | packages/auth/src/providers/refreshing-auth-provider.ts:189-270 | a user removed while their refresh is awaited is registered again when it completes |
| RefreshingAuth.FailedRefreshWedgesUser | packages/auth/src/providers/refreshing-auth-provider.ts:209-268 | as written, after one failed refresh every later lookup fails with that error, even after the user is re-added with a fresh token |
| RefreshingAuth.AbandonedRefreshRecovers | packages/auth/src/providers/refreshing-auth-provider.ts:209-230 | with the corrected failure, a user re-added with a fresh token is served that token |
| LegacyAuth.RegistryFromLastEntryWins | packages/auth/src/providers/BaseAuthProvider.ts:13-16 | every listed user is registered with the token of its last entry |
| LegacyAuth.RegistryFromKeys | packages/auth/src/providers/BaseAuthProvider.ts:13-16 | the registered ids are exactly the listed ids |
| LegacyAuth.BaseAuthProvider.constructor | packages/auth/src/providers/BaseAuthProvider.ts:13-20 | keeps the client id and registers the listed users in order, later entries overwriting earlier ones |
| LegacyAuth.BaseAuthProvider.AddUser | packages/auth/src/providers/BaseAuthProvider.ts:22-24 | sets or overwrites the entry with no check |
| LegacyAuth.BaseAuthProvider.RemoveUser | packages/auth/src/providers/BaseAuthProvider.ts:26-28 | deletes only that id |
| LegacyAuth.BaseAuthProvider.GetScopesForUser | packages/auth/src/providers/BaseAuthProvider.ts:30-40 | the stored `scope` or [] for a present id, else UnregisteredUserError with the base class's message |
| LegacyAuth.WithDefaults | packages/auth/src/providers/StaticAuthProvider.ts:16-31 | keeps the id, access token and scope; fills a missing refresh token with '', expiresIn with 0 and obtainmentTimestamp with 0 |
| LegacyAuth.AllWithDefaults | packages/auth/src/providers/StaticAuthProvider.ts:16-31 | maps every listed user, in order |
| LegacyAuth.LegacyStaticAuthProvider.constructor | packages/auth/src/providers/StaticAuthProvider.ts:16-32 | the base registry is built from the defaulted users |
| LegacyAuth.LegacyStaticAuthProvider.DoGetAccessToken | packages/auth/src/providers/StaticAuthProvider.ts:34-54 | absent user → UnregisteredUserError; empty access token → a generic Error; otherwise the stored token, unchanged, iff its `scope` (when set) covers the requested scopes |
| LegacyAuth.LegacyStaticAuthProvider.GetAccessTokenForUser | packages/auth/src/providers/BaseAuthProvider.ts:42-44 | delegates unchanged to the static lookup |
| LegacyAuth.LaterStaticEntryWins | packages/auth/src/providers/StaticAuthProvider.ts:16-32 | a user listed twice is served the later, defaulted token |
| LegacyAuth.LegacyRefreshingAuthProvider.constructor | packages/auth/src/providers/RefreshingAuthProvider.ts:69-72 | empty registry, no pending refresh, no events, no calls |
| LegacyAuth.LegacyRefreshingAuthProvider.HasUser | packages/auth/src/providers/RefreshingAuthProvider.ts:83-85 | true iff the id is registered |
| LegacyAuth.LegacyRefreshingAuthProvider.AddUser | packages/auth/src/providers/RefreshingAuthProvider.ts:93-95 | stores the token with no validation and no scope check |
| LegacyAuth.LegacyRefreshingAuthProvider.AddUserForToken | packages/auth/src/providers/RefreshingAuthProvider.ts:105-140 | the token's `scope` is checked first; it refreshes only when a refresh token exists and the token is unexpired, and a failed refresh is returned; once past that, a failed identity call is exactly InvalidTokenError; success holds iff the scope check, the refresh when made and the identity call all succeed, storing the token under the identity's id; onRefresh is emitted only if it refreshed |
| LegacyAuth.LegacyRefreshingAuthProvider.AddUserForCode | packages/auth/src/providers/RefreshingAuthProvider.ts:147-166 | fails before any call without a redirect URI; otherwise the code-exchange request is sent first, and its failure is returned as RequestFailed after that one call; after it the identity call carries the new access token, and its failure is returned as RequestFailed; success holds iff the exchange and the identity call both succeed; on success the exchanged token is stored unchecked under the identity's id and onRefresh emitted once |
| LegacyAuth.LegacyRefreshingAuthProvider.RemoveUser | packages/auth/src/providers/RefreshingAuthProvider.ts:173-175 | deletes only the registry entry |
| LegacyAuth.LegacyRefreshingAuthProvider.GetScopesForUser | packages/auth/src/providers/RefreshingAuthProvider.ts:177-187 | UnregisteredUserError for an absent id, else `scope ?? []` |
| LegacyAuth.LegacyRefreshingAuthProvider.LookupAccessToken | packages/auth/src/providers/RefreshingAuthProvider.ts:189-212 | in order: pending refresh, absent user, then a valid token returned after the scope check; an expired one starts a refresh remembering the existing scopes |
| LegacyAuth.LegacyRefreshingAuthProvider.BeginRefresh | packages/auth/src/providers/RefreshingAuthProvider.ts:223-245 | absent user and missing refresh token are refused with nothing changed; otherwise the promise is stored before the await |
| LegacyAuth.LegacyRefreshingAuthProvider.CompleteRefresh | packages/auth/src/providers/RefreshingAuthProvider.ts:246-251 | the pending entry is deleted, the token stored and onRefresh emitted |
| LegacyAuth.LegacyRefreshingAuthProvider.FailRefresh | packages/auth/src/providers/RefreshingAuthProvider.ts:240-246 | the rejected promise stays stored; nothing else changes |
| LegacyAuth.LegacyRefreshingAuthProvider.ScopeRefreshedToken | packages/auth/src/providers/RefreshingAuthProvider.ts:203-214 | the old scopes are written onto the stored refreshed token, so the registry keeps them |
| LegacyAuth.RefreshKeepsScopesOnlyInLegacy | packages/auth/src/providers/RefreshingAuthProvider.ts:213-214 | after a refreshing lookup the earlier provider still reports the old scopes, while the later one reports [] |
| ApiUrl.StripLeadingSlash | packages/api-call/src/helpers/url.ts:7-10 | removes exactly one leading '/', if there is one |
| ApiUrl.GetApiUrl | packages/api-call/src/helpers/url.ts:4-18 | 'api' and 'auth' urls start with their base url; a 'custom' url is returned unchanged |
| ApiUrl.LeadingSlashIgnored | packages/api-call/src/helpers/url.ts:7-10 | for 'api' and 'auth', 'p' and '/p' give the same url |
| ApiUrl.OnlyOneSlashStripped | packages/api-call/src/helpers/url.ts:7 | '//x' keeps one slash |
| ApiUrl.RelativeUrlsInjective | packages/api-call/src/helpers/url.ts:6-10 | two paths resolve alike only when they agree after one leading slash is removed |
| ApiUrl.ApiAndOAuthUrlsDiffer | packages/api-call/src/helpers/url.ts:7-10 | an 'api' url never equals an 'auth' url |
| HttpErrors.ShownBody | packages/api-call/src/errors/http.error.ts:26 | a non-JSON body over 150 characters is shown as its first 147 characters plus '...'; JSON bodies and short bodies are shown verbatim |
| HttpErrors.NewHttpError | packages/api-call/src/errors/http.error.ts:16-69 | the getters return the constructor arguments, the body untruncated; the message is built from them |
| HttpErrors.MessageEndsWithShownBody | packages/api-call/src/errors/http.error.ts:25-26 | the message opens with the decimal status code and the status text, and ends with the shown body, which for a non-JSON body holds at most 150 characters |
| Transform.HandleResponseError | packages/api-call/src/helpers/transform.ts:6-17 | passes iff the response is ok; otherwise HttpError with status, status text, the url plus '?'-query, the method (GET by default) and the body, pretty-printed iff Content-Type is exactly 'application/json' |
| Transform.TransformResponse | packages/api-call/src/helpers/transform.ts:20-32 | 204 or an empty body decode to undefined; any other body to its parsed JSON, or a syntax error |
| Transform.CheckAndDecode | packages/api-call/src/api-call.ts:111-114 | the error check comes before decoding: a non-ok response is always an error |
| CallOptions.ParamPairs | packages/api-call/src/api-call.ts:42 | an undefined parameter contributes no pair, a scalar one pair, an array one pair per element |
| CallOptions.QueryString | packages/api-call/src/api-call.ts:42 | no query gives ''; otherwise the string is empty or starts with '?' |
| CallOptions.TextQueryString | packages/api-call/src/api-call.ts:42 | a single text parameter is rendered as '?key=value' |
| CallOptions.PageQueryString | packages/api/src/api/donation-alerts-api-paginator.ts:275-284 | a page query encodes as '?page=' followed by the number |
| CallOptions.UndefinedParamsSkipped | packages/api-call/src/api-call.ts:42 | adding an undefined parameter leaves the query unchanged |
| ApiCall.BuildRequest | packages/api-call/src/api-call.ts:35-69 | the request targets the resolved url plus the query; Accept is always sent; a JSON body wins over a form body, each with its own Content-Type, else no body (null now, undefined in the earlier version) and no Content-Type; the Bearer header only for a non-empty token; the method defaults to GET |
| ApiCall.CallDonationAlertsApi | packages/api-call/src/apiCall.ts:60-69 | sends the request BuildRequest describes, then runs the error check, then decodes |
| ApiCall.QueryAppendedToUrl | packages/api-call/src/apiCall.ts:22-48 | a query is appended after the resolved url: 'test-endpoint' with foo=bar becomes the API base, the endpoint, then '?foo=bar' |
| ApiCall.HeadersValues | packages/api-call/src/api-call.ts:44-59 | the headers hold Accept 'application/json' exactly once, one Content-Type iff a content type is chosen, and one Authorization iff a bearer value is given |
| Client.NewApiClient | packages/api/src/api-client.ts:119-149 | no auth provider is an Error; the behaviour defaults to 'enqueue'; one request per second (the default) nests a 1-per-1000 ms limiter in a 60-per-60000 ms passthrough, else a single 60-per-60000 ms limiter |
| Client.RouteFor | packages/api/src/api-client.ts:247-274 | only type 'api' (the default) goes through the limiter, with the per-call behaviour overriding the client's |
| Client.RequestedScopes | packages/api/src/api-client.ts:222-224 | the provider is asked for [scope] when a scope is given, else for no scopes |
| Client.CallApi | packages/api/src/api-client.ts:213-239 | an invalid user id fails first; auth false skips the provider and sends no token; otherwise the provider is asked once; a 401 with a refresh-capable provider causes exactly one refresh and one retry; the final response is checked and decoded |
| Client.SecondUnauthorizedNotRetried | packages/api/src/ApiClient.ts:219-225 | two 401s in a row send two requests and end in an HttpError with status 401 |
| Paging.ReduceIsFlatMap | packages/api/src/api/donation-alerts-api-paginator.ts:300-307 | the reduce the source runs is the in-order concatenation of the mapper's outputs |
| Paging.SingleOutputsKeepOrder | packages/api/src/api/DonationAlertsApiPaginator.ts:257-264 | with single-item outputs a page has one item per element, in order |
| Paging.PageItems | packages/api/src/api/donation-alerts-api-paginator.ts:300-307 | [] past the last page, else every mapper output spliced in order |
| Paging.FetchOptions | packages/api/src/api/DonationAlertsApiPaginator.ts:232-241 | the page query is used unless the call options carry a query, which replaces it |
| Paging.ResetState | packages/api/src/api/donation-alerts-api-paginator.ts:116-125 | reset clears every field but keeps the raw data |
| Paging.Processed | packages/api/src/api/donation-alerts-api-paginator.ts:287-298 | finished iff current_page ≥ last_page (or already finished); every meta field and the raw response copied |
| Paging.NextStepFrom | packages/api/src/api/donation-alerts-api-paginator.ts:168-186 | finished → nothing; a known current page at or past the total → finish now; known pages → current+1, never past the total; else page 1 |
| Paging.PrevPage | packages/api/src/api/donation-alerts-api-paginator.ts:200-209 | current−1 when current > 1, else 1; never below 1 |
| Paging.Paginator.constructor | packages/api/src/api/donation-alerts-api-paginator.ts:28-34 | a new paginator is reset and holds no data |
| Paging.Paginator.Reset | packages/api/src/api/DonationAlertsApiPaginator.ts:100-109 | the state becomes ResetState of the old one |
| Paging.Paginator.ProcessData | packages/api/src/api/donation-alerts-api-paginator.ts:286-308 | the state becomes Processed of the old one and the items are PageItems |
| Paging.Paginator.FetchAndProcess | packages/api/src/api/donation-alerts-api-paginator.ts:275-284 | one request for the page: an error leaves the state untouched, a page is processed |
| Paging.Paginator.GetPage | packages/api/src/api/donation-alerts-api-paginator.ts:146-153 | a page past a known total gives [] without a request; otherwise that page is fetched |
| Paging.Paginator.GetNext | packages/api/src/api/donation-alerts-api-paginator.ts:168-186 | follows NextStepFrom: [] without a request when finished or finishing, else fetches the chosen page |
| Paging.Paginator.GetPrev | packages/api/src/api/DonationAlertsApiPaginator.ts:169-178 | fetches PrevPage |
| Paging.Paginator.AfterFetch | packages/api/src/api/donation-alerts-api-paginator.ts:227-243 | after one page fetched by getAll: an error or an empty page ends the result there; a last page is the rest of the result; any other page comes first, followed by the pages after it |
| Paging.Paginator.GetAll | packages/api/src/api/donation-alerts-api-paginator.ts:227-243 | the pages from 1 on, concatenated in order, up to an empty or the last page or the first error; a success ends reset |
| Signature.LeavesAppend | packages/api/src/utils/create-sha256-signature-from-params.ts:5 | the flattened values of two field lists are those of each, in order |
| Signature.DefinedStringsAppend | packages/api/src/utils/create-sha256-signature-from-params.ts:6-7 | filtering and stringifying distributes over concatenation |
| Signature.Sort | packages/api/src/utils/create-sha256-signature-from-params.ts:8 | sorting keeps the multiset of strings |
| Signature.SortSorted | packages/api/src/utils/create-sha256-signature-from-params.ts:8 | the sorted strings are in code-unit order |
| Signature.SortedUnique | packages/api/src/utils/createSha256SignatureFromParams.ts:8 | two sorted arrangements of the same strings are equal |
| Signature.SortIgnoresOrder | packages/api/src/utils/createSha256SignatureFromParams.ts:8 | the sort depends only on which strings there are |
| Signature.LeavesPermutation | packages/api/src/utils/create-sha256-signature-from-params.ts:5 | reordering the fields permutes the flattened values |
| Signature.DefinedStringsPermutation | packages/api/src/utils/create-sha256-signature-from-params.ts:6-7 | permuted values give permuted strings |
| Signature.Preimage | packages/api/src/utils/create-sha256-signature-from-params.ts:5-11 | the hashed string ends with the secret, with no separator |
| Signature.CreateSignature | packages/api/src/utils/createSha256SignatureFromParams.ts:4-12 | the digest of the preimage |
| Signature.SignatureIgnoresFieldOrder | packages/api/src/utils/create-sha256-signature-from-params.ts:8 | fields with the same multiset of entries sign alike |
| Signature.UndefinedFieldIgnored | packages/api/src/utils/create-sha256-signature-from-params.ts:6 | adding an undefined-valued field leaves the signature unchanged |
| Signature.NullFieldSigned | packages/api/src/utils/create-sha256-signature-from-params.ts:7 | a null field contributes 'null' |
| Merchandise.Flag | packages/api/src/api/merchandise/donation-alerts-merchandise-api.ts:183-184 | true ↦ '1', false ↦ '0', absent stays absent |
| Merchandise.LegacyFlag | packages/api/src/api/merchandise/DonationAlertsMerchandiseApi.ts:224-225 | '1' iff the flag is true; false and absent both ↦ '0' |
| Merchandise.SignedFormCall | packages/api/src/api/merchandise/donation-alerts-merchandise-api.ts:193-201 | a signed 'api' call whose signature is computed over the form without the signature field |
| Merchandise.CreateMerchandise | packages/api/src/api/merchandise/donation-alerts-merchandise-api.ts:173-207 | POST 'merchandise'; the flags follow Flag; img_url and end_at_ts carry imageUrl and endTimestamp; the signed form has no 'signature' key |
| Merchandise.UpdateMerchandise | packages/api/src/api/merchandise/donation-alerts-merchandise-api.ts:223-258 | PUT 'merchandise/{id}', the flags following Flag, signed before the signature is added |
| Merchandise.CreateOrUpdateMerchandise | packages/api/src/api/merchandise/donation-alerts-merchandise-api.ts:278-310 | POST 'merchandise/{merchant}/{merchandise}' with CreateOrUpdateForm as the form, signed over that form |
| Merchandise.CreateOrUpdateFormFacts | packages/api/src/api/merchandise/donation-alerts-merchandise-api.ts:284-294 | the form is the create form without its two leading identifiers, and has no merchant_identifier, merchandise_identifier or signature key |
| Merchandise.FormFacts | packages/api/src/api/merchandise/donation-alerts-merchandise-api.ts:179-193 | a merchandise form has no 'signature' key, and is_active, is_percentage, img_url and end_at_ts read back as placed |
| Merchandise.SaleFormFacts | packages/api/src/api/merchandise/donation-alerts-merchandise-api.ts:331-342 | the sale form sends the count under 'boughtAmount' and has no 'bought_amount' or 'signature' key |
| Merchandise.SendSaleAlert | packages/api/src/api/merchandise/donation-alerts-merchandise-api.ts:325-358 | POST 'merchandise_sale'; the count is sent under 'boughtAmount', not snake case |
| Merchandise.OmittedFlagUnsigned | packages/api/src/api/merchandise/donation-alerts-merchandise-api.ts:183-193 | an omitted flag is signed as if the field were not there |
| Merchandise.LegacyCreateMerchandise | packages/api/src/api/merchandise/DonationAlertsMerchandiseApi.ts:214-248 | POST 'merchandise', the flags following LegacyFlag, signed before the signature is added |
| Merchandise.CreateVersionsAgreeOnGivenFlags | packages/api/src/api/merchandise/DonationAlertsMerchandiseApi.ts:224-225 | the two create forms agree when both flags are given; an omitted flag is '0' in the earlier one and absent in the later one |
| Merchandise.LegacyUpdateMerchandise | packages/api/src/api/merchandise/DonationAlertsMerchandiseApi.ts:263-298 | the earlier update is the later one |
| Merchandise.LegacySendSaleAlert | packages/api/src/api/merchandise/DonationAlertsMerchandiseApi.ts:312-345 | as written: POST to url '' |
| Merchandise.LegacySaleAlertPostsToApiRoot | packages/api/src/api/merchandise/DonationAlertsMerchandiseApi.ts:337-338 | the earlier sale alert reaches the bare API root, not the sale endpoint |
| Centrifugo.ChannelName | packages/api/src/api/centrifugo/donation-alerts-centrifugo-api.ts:192-221 | transformChannel (default true) gives `{channel}_{userId}`, otherwise the channel verbatim |
| Centrifugo.ChannelNames | packages/api/src/api/centrifugo/donation-alerts-centrifugo-api.ts:191-194 | one name per channel, in order |
| Centrifugo.ChannelNameInjective | packages/api/src/api/centrifugo/donation-alerts-centrifugo-api.ts:193 | for one user, different channels get different names |
| Centrifugo.ChannelNamesDistinct | packages/api/src/api/centrifugo/donation-alerts-centrifugo-api.ts:193 | distinct channels in the list stay distinct |
| Centrifugo.SubscribeMultipleRequest | packages/api/src/api/centrifugo/donation-alerts-centrifugo-api.ts:176-198 | POST 'centrifuge/subscribe' with {client, channels} and no scope |
| Centrifugo.SubscribeSingleRequest | packages/api/src/api/centrifugo/donation-alerts-centrifugo-api.ts:203-226 | the same request for one channel, with its scope |
| Centrifugo.SingleIsMultipleWithScope | packages/api/src/api/centrifugo/donation-alerts-centrifugo-api.ts:183-224 | a single subscription is the multi-channel request for that channel plus the scope |
| Centrifugo.SingleResult | packages/api/src/api/centrifugo/donation-alerts-centrifugo-api.ts:228-232 | an error naming the channel iff the server returned no channel, else the first |
| Centrifugo.EventChannel | packages/api/src/api/centrifugo/donation-alerts-centrifugo-api.ts:96-173 | donation, goal and poll events pair with their channels and scopes |
| Centrifugo.SubscribeToEvents | packages/api/src/api/centrifugo/donation-alerts-centrifugo-api.ts:90-174 | each event subscription names its channel and carries its scope |
| Centrifugo.DefaultDonationChannelName | packages/api/src/api/centrifugo/donation-alerts-centrifugo-api.ts:99-221 | user 42's donation channel is '$alerts:donation_42' by default |
| Donations.PageNumber | packages/api/src/api/donations/donation-alerts-donations-api.ts:50 | the given page when it is a number other than 0, else 1 |
| Donations.PaginatorOptions | packages/api/src/api/donations/donation-alerts-donations-api.ts:138-150 | GET 'alerts/donations' with scope 'oauth-donation-index', auth true, no query |
| Donations.DonationsRequest | packages/api/src/api/donations/DonationAlertsDonationsApi.ts:36-49 | the same endpoint and scope with query {page} |
| Donations.PaginatorRequestsMatch | packages/api/src/api/donations/donation-alerts-donations-api.ts:52-150 | the paginator's request for page p is getDonations' request for p |
| Donations.DonationsOf | packages/api/src/api/donations/donation-alerts-donations-api.ts:65 | one donation per response element, in order |
| Donations.PaginatorPageMatchesGetDonations | packages/api/src/api/donations/DonationAlertsDonationsApi.ts:51-96 | within range the paginator's page equals getDonations' result; past the end it is empty |
| Donations.CreateDonationsPaginator | packages/api/src/api/donations/donation-alerts-donations-api.ts:134-151 | a fresh, reset paginator over the donations options and mapper |
| Donations.GetAllDonations | packages/api/src/api/donations/donation-alerts-donations-api.ts:93-98 | the paginator's getAll result |
| Donations.SinglePageCollected | packages/api/src/api/donations/DonationAlertsDonationsApi.ts:67-72 | with a single page, getAllDonations returns getDonations' result for page 1 |
| CustomAlerts.IsShown | packages/api/src/api/customAlerts/DonationAlertsCustomAlertsApi.ts:80 | '0' when shouldShow is true or omitted, '1' when it is false |
| CustomAlerts.SendCustomAlert | packages/api/src/api/customAlerts/DonationAlertsCustomAlertsApi.ts:64-90 | POST 'custom_alert' with scope 'oauth-custom_alert-store', auth true, and the custom-alert form as its only body |
| CustomAlerts.FormFacts | packages/api/src/api/customAlerts/DonationAlertsCustomAlertsApi.ts:76-83 | every field of the data reads back from the form under its snake-case wire name |
| CustomAlerts.NoCamelCaseKeys | packages/api/src/api/customAlerts/DonationAlertsCustomAlertsApi.ts:76-83 | none of externalId, imageUrl, soundUrl or shouldShow is a key of the form |
| CustomAlerts.DefaultAlertIsShown | packages/api/src/api/customAlerts/DonationAlertsCustomAlertsApi.ts:80 | an alert sent without data has is_shown '0', as with shouldShow true |
| Events.UserClient.Close | packages/events/src/events-client.ts:139-141 | the client ends disconnected with its relays removed |
| Events.UserClient.Open | packages/events/src/user-events-client.ts:146-151 | the socket's connect leaves the client connected, its relays as they were |
| Events.EventsClient.constructor | packages/events/src/events-client.ts:55-60 | no user clients and no events |
| Events.EventsClient.GetUserClient | packages/events/src/events-client.ts:68-78 | the client registered under the resolved id, an Error naming an unregistered id, or the TypeError of an invalid id |
| Events.EventsClient.HasUser | packages/events/src/EventsClient.ts:72-74 | true iff the resolved id is registered, i.e. iff getUserClient would succeed |
| Events.EventsClient.AddUser | packages/events/src/events-client.ts:99-120 | a registered id is an Error with nothing changed; otherwise a new, unconnected client for the id is stored and returned, and only that entry is added |
| Events.EventsClient.RemoveUser | packages/events/src/events-client.ts:131-144 | an absent id changes nothing; a present one is disconnected with its listeners removed, then only its entry is deleted; a client that was connected has its disconnect re-emitted once, with the reason and reconnect flag, before its relay is removed; otherwise nothing is emitted; other clients are untouched |
| Events.EventsClient.RelayConnect | packages/events/src/events-client.ts:112 | a client's connect is re-emitted with its id while its relay is attached |
| Events.EventsClient.RelayDisconnect | packages/events/src/events-client.ts:113-115 | a disconnect is re-emitted with the id, reason and reconnect flag while the relay is attached |
| Events.EventsClient.On | packages/events/src/events-client.ts:154-189 | onDonation / onGoalUpdate / onPollUpdate fail exactly when getUserClient fails, and otherwise listen on that user's client |
| Events.AddRemoveAdd | packages/events/src/EventsClient.ts:81-124 | a second addUser of an id fails; after removeUser the id can be added again, with a new client |
| Events.RemovedUserIsSilent | packages/events/src/events-client.ts:131-159 | a removed user's client no longer relays, and listening for that user fails as unregistered |
| Events.RemoveConnectedUser | packages/events/src/events-client.ts:112-144 | a user whose client connects sees Connected, and removing them then emits exactly one Disconnected for them |

## Left out

- Network, `fetch`, `qs.stringify`, `JSON.stringify` / `JSON.parse` and `sha256` are not modelled. Answers are parameters. Bodies and queries are value trees, and the query string is `key=value` pairs joined by '&' without percent-encoding. A digest is kept as its preimage.
- `Date.now()` is a `now` parameter and `new Date(...)` is its epoch milliseconds.
- Floating point is not modelled: token lifetimes, prices and ids are unbounded integers.
- The rate limiters' internals (queueing, buckets, timing) are not modelled. Only the chosen configuration and whether a call goes through the limiter are.
- Client.CallApi: the 'null' limit behaviour, which would make a following `response.status` read fail, is not modelled. Calls routed through the limiter are assumed to be answered.
- User ids reach the auth providers (StaticAuth, RefreshingAuth, LegacyAuth) and Centrifugo.ChannelName already resolved, as an `int`: the `extractUserId` call at each of their entry points, with its TypeError, is not repeated there. The events client and Client.CallApi resolve ids with UserResolvers.ExtractUserId, the pure digit rule. The shared `lastIndex` of the module-level regex (UserResolvers.ExtractUserIdAsWritten) is not threaded through any of these components. So the second resolution of a digit-string id that the as-written resolver rejects is accepted there; for example, the Centrifugo subscription resolves the id inline and `callApi` resolves it again.
- Merchandise.SignedFormCall: the signature is kept beside the form body instead of being added to it as a `signature` field, as the source's `{ ...formData, signature }` does. Merchandise.FormFacts and SaleFormFacts prove that no form has a `signature` key of its own, so that field would not overwrite any key.
- Events.EventsClient.RemoveUser: the `reason` and `reconnect` of the disconnect are supplied by the Centrifugo library, and are parameters.
- Concurrency is modelled only at the await points of the refreshing providers, as separate begin / complete / fail steps. A lookup that finds an expired token and the BeginRefresh that stores its refresh promise are two steps, so the model admits other steps between them. In the source no await separates the two, so nothing can run there. The scenario lemmas schedule the two back to back. The events client's `removeUser` awaits the disconnect, and a call interleaved with that await is not modelled.
- LegacyAuth.LegacyRefreshingAuthProvider.ScopeRefreshedToken: the source writes the scopes onto the very object in the registry. The model writes them only while the entry still equals the refreshed token, so object identity is approximated by value equality.
- Paging.Paginator.GetAll: termination relies on the server reporting page p as page p with the same last page. Without that (`Serves`), the source may loop, and the model does not cover that case.
- The paginator's async iterator (`[Symbol.asyncIterator]`) is not modelled.
- An explicit `query: undefined` in a paginator's call options is not distinguished from an absent query.
- `flattenObject` is modelled as walking nested objects in key order, with arrays as leaves.
- Signature.Sort compares characters. JavaScript's default sort compares UTF-16 code units, and the two differ for characters outside the Basic Multilingual Plane. HttpErrors.ShownBody likewise measures the body's length in characters, while `length` in http.error.ts counts UTF-16 code units.
- Data-object accessor classes (donations, merchandise, custom alerts, Centrifugo channels) are not modelled. Results carry the raw response records.
- The per-user events clients (the Centrifugo WebSocket connections) are not modelled. A per-user client is its id, a connected flag and a relay flag.
- The logger options and the `fetchOptions` spread are not modelled.
- The tests for access tokens expect a null `expiresIn` to mean a token that never expires. The source has no such case, so the model follows the source.
- The one-minute grace period in the doc comment of `isAccessTokenExpired` is not implemented by the source, so the model has none.
- helpers.ts: the source's `compareScopes` takes two arguments and throws a MissingScopeError that carries only its message, which lists all requested scopes. The later generation's call sites pass a user id as a third argument (refreshing-auth-provider.ts and static-auth-provider.ts). For those, the model's error also carries the id and the list of missing scopes.
- LegacyAuth: the earlier generation calls `compareScopes` with two arguments (RefreshingAuthProvider.ts and StaticAuthProvider.ts). The model passes no id there, but its error still carries the list of missing scopes, which the source's error does not have. The message text is the same.
- RefreshingAuth.RefreshingAuthProvider.AddUserForCode: the code exchange calls `getAccessToken`, which helpers.ts does not define; helpers.ts exports `exchangeCode` instead. The model takes `getAccessToken` to send `exchangeCode`'s request: a GET to the 'token' endpoint with the authorization_code grant.

## Findings

| source | as written | input that shows it | evidently intended | confidence | as-written member | corrected member |
|---|---|---|---|---|---|---|
| packages/common/src/user-resovlers.ts:1, 56, 66 | the digit regex has the global flag, so `test` resumes at the `lastIndex` left by the previous successful match | `extractUserId('123')` then `extractUserId('456')`: the second throws TypeError | every digit string resolves | not executed | UserResolvers.SecondNumericIdRejected | UserResolvers.DecimalIdResolves |
| packages/auth/src/providers/refreshing-auth-provider.ts:261-269 | a rejected refresh promise is never removed from the pending map | a refresh whose token call fails: every later `getAccessTokenForUser` for that user rethrows, even after `addUser` with a fresh token | the pending entry is dropped on failure | not executed | RefreshingAuth.FailedRefreshWedgesUser | RefreshingAuth.AbandonedRefreshRecovers |
| packages/api/src/api/merchandise/DonationAlertsMerchandiseApi.ts:337-338 | the earlier `sendSaleAlert` posts to url '' | any sale alert: the POST goes to `https://www.donationalerts.com/api/v1/` | POST 'merchandise_sale', as the later version does | not executed | Merchandise.LegacySaleAlertPostsToApiRoot | Merchandise.SendSaleAlert |
