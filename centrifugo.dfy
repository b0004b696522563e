/** Subscription of a user to Centrifugo private channels: the channel
    names sent, the scope chosen and the handling of the answer. */
module Centrifugo {
  import opened Wrappers
  import opened Decimal
  import opened Values
  import opened CallOptions

  const SubscribeUrl := "centrifuge/subscribe"

  const DonationChannel := "$alerts:donation"
  const GoalChannel := "$goals:goal"
  const PollChannel := "$polls:poll"

  const DonationScope := "oauth-donation-subscribe"
  const GoalScope := "oauth-goal-subscribe"
  const PollScope := "oauth-poll-subscribe"

  /** `transformChannel`, which defaults to true when not given. */
  datatype SubscribeOptions = SubscribeOptions(transformChannel: Option<bool>)

  /** A channel the server reports the user subscribed to. */
  datatype ChannelData = ChannelData(channel: string, token: string)

  datatype SubscribeError = NoChannels(message: string)

  predicate Transforms(options: SubscribeOptions)
  {
    options.transformChannel.GetOr(true)
  }

  /** The name sent for `channel`: `{channel}_{userId}` when transforming,
      the channel itself otherwise. */
  function ChannelName(channel: string, userId: int, options: SubscribeOptions): (name: string)
    ensures !Transforms(options) ==> name == channel
    ensures Transforms(options) ==>
      |name| > |channel| + 1 && name[..|channel|] == channel &&
      name[|channel|] == '_' && name[|channel| + 1..] == IntToDecimal(userId)
  {
    if Transforms(options) then
      var name := channel + "_" + IntToDecimal(userId);
      assert name[|channel| + 1..] == IntToDecimal(userId);
      name
    else channel
  }

  /** The names sent for a list of channels, in the same order. */
  function ChannelNames(channels: seq<string>, userId: int, options: SubscribeOptions): (names: seq<string>)
    ensures |names| == |channels|
    ensures forall i :: 0 <= i < |channels| ==> names[i] == ChannelName(channels[i], userId, options)
  {
    if channels == [] then [] else [ChannelName(channels[0], userId, options)] + ChannelNames(channels[1..], userId, options)
  }

  /** For one user, different channels are sent under different names:
      the transformation loses nothing. */
  lemma ChannelNameInjective(a: string, b: string, userId: int, options: SubscribeOptions)
    requires ChannelName(a, userId, options) == ChannelName(b, userId, options)
    ensures a == b
  {
    if Transforms(options) {
      var name := ChannelName(a, userId, options);
      var suffix := "_" + IntToDecimal(userId);
      assert |a| == |name| - |suffix| == |b|;
      assert a == name[..|a|] == b;
    }
  }

  /** The names sent never contain fewer or repeated entries than the
      channels given: distinct channels give distinct names. */
  lemma ChannelNamesDistinct(channels: seq<string>, userId: int, options: SubscribeOptions, i: nat, j: nat)
    requires i < |channels| && j < |channels| && channels[i] != channels[j]
    ensures ChannelNames(channels, userId, options)[i] != ChannelNames(channels, userId, options)[j]
  {
    if ChannelName(channels[i], userId, options) == ChannelName(channels[j], userId, options) {
      ChannelNameInjective(channels[i], channels[j], userId, options);
    }
  }

  function SubscribeBody(clientId: string, names: seq<string>): (body: Value)
    ensures body.Obj? && Lookup(body.fields, "client") == Str(clientId)
    ensures body.Obj? && Lookup(body.fields, "channels").Arr?
  {
    var fields := [Field("client", Str(clientId)), Field("channels", Arr(seq(|names|, i requires 0 <= i < |names| => Str(names[i]))))];
    assert Lookup(fields[..1], "client") == Str(clientId);
    Obj(fields)
  }

  /** subscribeUserToPrivateChannels: one POST naming every channel, in
      order, with no scope. */
  function SubscribeMultipleRequest(userId: int, clientId: string, channels: seq<string>, options: SubscribeOptions): (o: ApiCallOptions)
    ensures o.url == SubscribeUrl && o.callType == Some(Api) && o.httpMethod == Some(POST)
    ensures o.scope.None? && o.auth.None? && o.query.None? && o.formBody.None?
    ensures o.jsonBody == Some(SubscribeBody(clientId, ChannelNames(channels, userId, options)))
  {
    ApiCallOptions(SubscribeUrl, Some(Api), Some(POST), None,
                   Some(SubscribeBody(clientId, ChannelNames(channels, userId, options))), None, None, None)
  }

  /** The request for a single channel, with its scope. */
  function SubscribeSingleRequest(userId: int, clientId: string, channel: string, scope: Option<string>, options: SubscribeOptions): (o: ApiCallOptions)
    ensures o.url == SubscribeUrl && o.callType == Some(Api) && o.httpMethod == Some(POST) && o.scope == scope
    ensures o.jsonBody == Some(SubscribeBody(clientId, [ChannelName(channel, userId, options)]))
  {
    ApiCallOptions(SubscribeUrl, Some(Api), Some(POST), None,
                   Some(SubscribeBody(clientId, [ChannelName(channel, userId, options)])), None, scope, None)
  }

  /** A single subscription sends what a multi-channel one with that
      channel alone sends, plus the scope. */
  lemma SingleIsMultipleWithScope(userId: int, clientId: string, channel: string, scope: Option<string>, options: SubscribeOptions)
    ensures SubscribeSingleRequest(userId, clientId, channel, scope, options) ==
      SubscribeMultipleRequest(userId, clientId, [channel], options).(scope := scope)
  {
    assert ChannelNames([channel], userId, options) == [ChannelName(channel, userId, options)];
  }

  const SubscribeFailurePrefix := "Could not subscribe to the private channel: "

  /** The single-channel answer: an error naming the channel as given
      when the server returns no channel, else the first one. */
  function SingleResult(channel: string, response: seq<ChannelData>): (r: Result<ChannelData, SubscribeError>)
    ensures r.Err? <==> |response| == 0
    ensures r.Ok? ==> r.value == response[0]
    ensures r.Err? ==> r.error.message == SubscribeFailurePrefix + channel
  {
    if |response| == 0 then Err(NoChannels(SubscribeFailurePrefix + channel))
    else Ok(response[0])
  }

  /** The channel and scope each single subscription uses. */
  datatype EventKind = DonationEvents | GoalEvents | PollEvents

  function EventChannel(kind: EventKind): (pair: (string, string))
    ensures kind.DonationEvents? ==> pair == (DonationChannel, DonationScope)
    ensures kind.GoalEvents? ==> pair == (GoalChannel, GoalScope)
    ensures kind.PollEvents? ==> pair == (PollChannel, PollScope)
  {
    match kind
    case DonationEvents => (DonationChannel, DonationScope)
    case GoalEvents => (GoalChannel, GoalScope)
    case PollEvents => (PollChannel, PollScope)
  }

  /** subscribeUserTo{Donation,GoalUpdate,PollUpdate}Events: the request
      names the kind's channel and carries its scope. */
  function SubscribeToEvents(kind: EventKind, userId: int, clientId: string, options: SubscribeOptions): (o: ApiCallOptions)
    ensures o.scope == Some(EventChannel(kind).1)
    ensures o.jsonBody == Some(SubscribeBody(clientId, [ChannelName(EventChannel(kind).0, userId, options)]))
    ensures o.url == SubscribeUrl && o.httpMethod == Some(POST)
  {
    SubscribeSingleRequest(userId, clientId, EventChannel(kind).0, Some(EventChannel(kind).1), options)
  }

  /** By default the donation channel of user 42 is '$alerts:donation_42'. */
  lemma DefaultDonationChannelName()
    ensures ChannelName(DonationChannel, 42, SubscribeOptions(None)) == "$alerts:donation_42"
  {
    assert NatToDecimal(42) == NatToDecimal(4) + [DigitChar(2)];
  }
}
