/** The API client: its rate-limiter configuration and the `callApi`
    orchestration (resolve the user, get a token, dispatch, retry once after
    a 401, then check and decode). The auth provider, the transport and the
    limiter's queue are outside the model: their answers are inputs. */
module Client {
  import opened Wrappers
  import opened CallOptions
  import opened Transform
  import opened ApiCall
  import opened UserResolvers
  import opened AccessTokens
  import opened AuthErrors

  datatype LimitReachedBehavior = Enqueue | Throw | ReturnNull

  datatype RateLimiterOptions = RateLimiterOptions(
    limitToOneRequestPerSecond: Option<bool>,
    limitReachedBehavior: Option<LimitReachedBehavior>)

  /** At most `bucketSize` requests in any `timeFrame` milliseconds. */
  datatype Window = Window(bucketSize: nat, timeFrame: nat)

  /** A time-based limiter, or one wrapped in a passthrough limiter that
      adds a second, longer window. */
  datatype RateLimiter =
    | TimeBased(window: Window)
    | TimedPassthru(inner: Window, outer: Window)

  /** The client configuration; the provider itself is outside the model,
      only whether one was given. `gen` names the call helper in use. */
  datatype ApiConfig = ApiConfig(
    hasAuthProvider: bool,
    gen: Generation,
    rateLimiterOptions: Option<RateLimiterOptions>)

  datatype ApiClient = ApiClient(config: ApiConfig, limitReachedBehavior: LimitReachedBehavior, rateLimiter: RateLimiter)

  const NoAuthProviderMessage := "No auth provider given. Please supply the `authProvider` option."

  /** The per-application limit of the Donation Alerts API. */
  const ApiWindow := Window(60, 60000)
  const OnePerSecond := Window(1, 1000)

  /** `limitToOneRequestPerSecond`, true unless set to false. */
  predicate LimitsToOnePerSecond(config: ApiConfig)
  {
    config.rateLimiterOptions.None? || config.rateLimiterOptions.value.limitToOneRequestPerSecond.GetOr(true)
  }

  /** The longest window a limiter enforces. */
  function OuterWindow(limiter: RateLimiter): Window
  {
    match limiter
    case TimeBased(w) => w
    case TimedPassthru(_, w) => w
  }

  /** The constructor: fails without an auth provider; the behaviour
      defaults to enqueueing; the limiter allows one request per second
      inside the API's 60 per minute unless that is switched off, and the
      60-per-minute window is in force either way. */
  function NewApiClient(config: ApiConfig): (r: Result<ApiClient, string>)
    ensures r.Err? <==> !config.hasAuthProvider
    ensures r.Err? ==> r.error == NoAuthProviderMessage
    ensures r.Ok? ==> r.value.config == config && OuterWindow(r.value.rateLimiter) == ApiWindow
    ensures r.Ok? ==>
      r.value.limitReachedBehavior ==
        (if config.rateLimiterOptions.Some? && config.rateLimiterOptions.value.limitReachedBehavior.Some?
         then config.rateLimiterOptions.value.limitReachedBehavior.value else Enqueue)
    ensures r.Ok? ==> (r.value.rateLimiter == TimedPassthru(OnePerSecond, ApiWindow) <==> LimitsToOnePerSecond(config))
    ensures r.Ok? ==> (r.value.rateLimiter == TimeBased(ApiWindow) <==> !LimitsToOnePerSecond(config))
  {
    if !config.hasAuthProvider then Err(NoAuthProviderMessage)
    else
      var behavior := if config.rateLimiterOptions.Some? then config.rateLimiterOptions.value.limitReachedBehavior.GetOr(Enqueue) else Enqueue;
      var limiter := if LimitsToOnePerSecond(config) then TimedPassthru(OnePerSecond, ApiWindow) else TimeBased(ApiWindow);
      Ok(ApiClient(config, behavior, limiter))
  }

  /** How `_callApiInternal` sends a request. */
  datatype Route = ViaLimiter(behavior: LimitReachedBehavior) | Direct

  /** Only calls of type 'api' (the default) go through the limiter, with
      the per-call behaviour taking precedence over the client's. */
  function RouteFor(client: ApiClient, options: ApiCallOptions, perCall: Option<LimitReachedBehavior>): (r: Route)
    ensures r.ViaLimiter? <==> options.callType.None? || options.callType == Some(Api)
    ensures r.ViaLimiter? ==> r.behavior == perCall.GetOr(client.limitReachedBehavior)
  {
    if options.callType.GetOr(Api) == Api then ViaLimiter(perCall.GetOr(client.limitReachedBehavior)) else Direct
  }

  /** `auth` defaults to true. */
  predicate ShouldAuth(options: ApiCallOptions)
  {
    options.auth.GetOr(true)
  }

  /** The scopes the provider is asked for: the call's scope when it is a
      non-empty string, otherwise none. */
  function RequestedScopes(options: ApiCallOptions): (r: Option<seq<string>>)
    ensures r.Some? <==> options.scope.Some? && options.scope.value != ""
    ensures r.Some? ==> r.value == [options.scope.value]
  {
    if options.scope.Some? && options.scope.value != "" then Some([options.scope.value]) else None
  }

  datatype ProviderCall = GetToken(userId: int, scopes: Option<seq<string>>) | RefreshToken(userId: int)

  datatype Dispatch = Dispatch(route: Route, request: Request)

  datatype CallError = UserIdInvalid(resolveError: ResolveError) | AuthFailed(authError: AuthError) | CallFailed(callError: ApiCallError)

  /** The provider's answers to getAccessTokenForUser and (when it has one)
      refreshAccessTokenForUser. */
  datatype ProviderAnswers = ProviderAnswers(
    token: Result<AccessTokenWithUserId, AuthError>,
    canRefresh: bool,
    refreshed: Result<AccessTokenWithUserId, AuthError>)

  function Lift(r: Result<Decoded, ApiCallError>): (l: Result<Decoded, CallError>)
    ensures l.Ok? <==> r.Ok?
    ensures r.Ok? ==> l.value == r.value
    ensures r.Err? ==> l.error == CallFailed(r.error)
  {
    match r
    case Ok(v) => Ok(v)
    case Err(e) => Err(CallFailed(e))
  }

  /** callApi, with `first` and `retry` the responses the transport gives
      to the first and the repeated dispatch. Returns the outcome, the
      provider calls made and the requests dispatched, in order. */
  method CallApi(client: ApiClient, user: UserIdResolvable, options: ApiCallOptions,
                 perCall: Option<LimitReachedBehavior>, provider: ProviderAnswers,
                 first: Response, retry: Response)
    returns (r: Result<Decoded, CallError>, asked: seq<ProviderCall>, sent: seq<Dispatch>)
    ensures |asked| <= 2 && |sent| <= 2
    ensures ExtractUserId(user).Err? ==>
      r == Err(UserIdInvalid(ExtractUserId(user).error)) && asked == [] && sent == []
    ensures ExtractUserId(user).Ok? && !ShouldAuth(options) ==>
      asked == [] && |sent| == 1 && sent[0].route == Direct &&
      Describes(sent[0].request, options, None, client.config.gen) &&
      r == Lift(CheckAndDecode(first, options))
    ensures ExtractUserId(user).Ok? && ShouldAuth(options) ==>
      |asked| >= 1 && asked[0] == GetToken(ExtractUserId(user).value, RequestedScopes(options))
    ensures ExtractUserId(user).Ok? && ShouldAuth(options) && provider.token.Err? ==>
      r == Err(AuthFailed(provider.token.error)) && |asked| == 1 && sent == []
    ensures ExtractUserId(user).Ok? && ShouldAuth(options) && provider.token.Ok? ==>
      |sent| >= 1 && sent[0].route == RouteFor(client, options, perCall) &&
      Describes(sent[0].request, options, Some(provider.token.value.token.accessToken), client.config.gen)
    ensures ExtractUserId(user).Ok? && ShouldAuth(options) && provider.token.Ok? &&
            !(first.status == 401 && provider.canRefresh) ==>
      |asked| == 1 && |sent| == 1 && r == Lift(CheckAndDecode(first, options))
    ensures ExtractUserId(user).Ok? && ShouldAuth(options) && provider.token.Ok? &&
            first.status == 401 && provider.canRefresh ==>
      |asked| == 2 && asked[1] == RefreshToken(ExtractUserId(user).value) &&
      (provider.refreshed.Err? ==> r == Err(AuthFailed(provider.refreshed.error)) && |sent| == 1) &&
      (provider.refreshed.Ok? ==>
         |sent| == 2 && sent[1].route == sent[0].route &&
         Describes(sent[1].request, options, Some(provider.refreshed.value.token.accessToken), client.config.gen) &&
         r == Lift(CheckAndDecode(retry, options)))
  {
    asked := [];
    sent := [];
    var userId := ExtractUserId(user);
    if userId.Err? {
      return Err(UserIdInvalid(userId.error)), asked, sent;
    }
    if !ShouldAuth(options) {
      var request := BuildRequest(options, None, client.config.gen);
      sent := [Dispatch(Direct, request)];
      return Lift(CheckAndDecode(first, options)), asked, sent;
    }
    asked := [GetToken(userId.value, RequestedScopes(options))];
    if provider.token.Err? {
      return Err(AuthFailed(provider.token.error)), asked, sent;
    }
    var accessToken := provider.token.value;
    var route := RouteFor(client, options, perCall);
    var request := BuildRequest(options, Some(accessToken.token.accessToken), client.config.gen);
    sent := [Dispatch(route, request)];
    var response := first;
    if response.status == 401 && provider.canRefresh {
      asked := asked + [RefreshToken(userId.value)];
      if provider.refreshed.Err? {
        return Err(AuthFailed(provider.refreshed.error)), asked, sent;
      }
      accessToken := provider.refreshed.value;
      request := BuildRequest(options, Some(accessToken.token.accessToken), client.config.gen);
      sent := sent + [Dispatch(route, request)];
      response := retry;
    }
    r := Lift(CheckAndDecode(response, options));
  }

  /** A call rejected with 401 twice is retried once only, and fails with
      the second 401. */
  method SecondUnauthorizedNotRetried(client: ApiClient, userId: nat, options: ApiCallOptions,
                                      token: AccessTokenWithUserId, refreshed: AccessTokenWithUserId,
                                      first: Response, retry: Response)
    returns (r: Result<Decoded, CallError>, sent: seq<Dispatch>)
    requires ShouldAuth(options) && first.status == 401 && retry.status == 401
    ensures |sent| == 2
    ensures r.Err? && r.error.CallFailed?
    ensures r.error.callError.Http? ==> r.error.callError.error.status == 401
  {
    var asked;
    DecimalIdResolves(userId);
    r, asked, sent := CallApi(client, UserText(Decimal.NatToDecimal(userId)), options, None,
                              ProviderAnswers(Ok(token), true, Ok(refreshed)), first, retry);
  }
}
