/** The events client's per-user registry of Centrifugo clients. Both
    shipped versions behave identically; one class models them. The
    socket each per-user client holds is not part of this model: a
    per-user client is its id, whether it is connected, and whether its
    connect / disconnect relays are still attached. */
module Events {
  import opened Wrappers
  import opened Decimal
  import opened UserResolvers

  datatype EventsError =
    | InvalidUser(resolveError: ResolveError)
    | NotRegistered(message: string)
    | AlreadyRegistered(message: string)

  const NotRegisteredTail := "\" is not registered. Use \"addUser\" method to register the user before listening to events."

  function NotRegisteredMessage(userId: int): string
  {
    "User \"" + IntToDecimal(userId) + NotRegisteredTail
  }

  const AlreadyRegisteredTail := "\" is already registered"

  function AlreadyRegisteredMessage(userId: int): string
  {
    "User \"" + IntToDecimal(userId) + AlreadyRegisteredTail
  }

  /** What the events client re-emits for its per-user clients. */
  datatype RelayedEvent =
    | Connected(userId: int)
    | Disconnected(userId: int, reason: string, reconnect: bool)

  datatype EventKind = DonationEvents | GoalUpdateEvents | PollUpdateEvents

  /** The listener an on* call returns: for which user and which events. */
  datatype Listener = Listener(userId: int, kind: EventKind)

  class UserClient {
    const userId: int
    var connected: bool
    /** Whether the relays the events client attached are still in place. */
    var relaying: bool

    constructor(userId: int)
      ensures this.userId == userId && !connected && relaying
    {
      this.userId := userId;
      connected := false;
      relaying := true;
    }

    /** The socket's 'connect' handler: the client is connected. */
    method Open()
      modifies this
      ensures connected && relaying == old(relaying)
    {
      connected := true;
    }

    /** disconnect(true) followed by removeListener(). */
    method Close()
      modifies this
      ensures !connected && !relaying
    {
      connected := false;
      relaying := false;
    }
  }

  class EventsClient {
    var userClients: map<int, UserClient>
    /** The onConnect / onDisconnect emissions so far, in order. */
    var emitted: seq<RelayedEvent>

    /** Every registered client is stored under its own id (so no client
        is stored twice) and relays to this client. */
    ghost predicate Valid()
      reads this, userClients.Values
    {
      (forall id :: id in userClients ==> userClients[id].userId == id && userClients[id].relaying)
    }

    constructor()
      ensures userClients == map[] && emitted == [] && Valid()
    {
      userClients := map[];
      emitted := [];
    }

    /** getUserClient: the client registered under the resolved id. */
    function GetUserClient(user: UserIdResolvable): (r: Result<UserClient, EventsError>)
      reads this
      ensures ExtractUserId(user).Err? ==> r == Err(InvalidUser(ExtractUserId(user).error))
      ensures ExtractUserId(user).Ok? ==>
        var id := ExtractUserId(user).value;
        (r.Ok? <==> id in userClients) &&
        (r.Ok? ==> r.value == userClients[id]) &&
        (r.Err? ==> r.error == NotRegistered(NotRegisteredMessage(id)))
    {
      match ExtractUserId(user)
      case Err(e) => Err(InvalidUser(e))
      case Ok(id) =>
        if id !in userClients then Err(NotRegistered(NotRegisteredMessage(id))) else Ok(userClients[id])
    }

    function HasUser(user: UserIdResolvable): (r: Result<bool, ResolveError>)
      reads this
      ensures r.Ok? <==> ExtractUserId(user).Ok?
      ensures r.Ok? ==> (r.value <==> ExtractUserId(user).value in userClients)
      ensures r.Ok? ==> (r.value <==> GetUserClient(user).Ok?)
    {
      match ExtractUserId(user)
      case Err(e) => Err(e)
      case Ok(id) => Ok(id in userClients)
    }

    /** addUser: a registered id is refused and nothing changes; otherwise
        a new client for the id is stored and returned. */
    method AddUser(user: UserIdResolvable) returns (r: Result<UserClient, EventsError>)
      requires Valid()
      modifies this
      ensures Valid() && emitted == old(emitted)
      ensures ExtractUserId(user).Err? ==>
        r == Err(InvalidUser(ExtractUserId(user).error)) && userClients == old(userClients)
      ensures ExtractUserId(user).Ok? && ExtractUserId(user).value in old(userClients) ==>
        r == Err(AlreadyRegistered(AlreadyRegisteredMessage(ExtractUserId(user).value))) && userClients == old(userClients)
      ensures ExtractUserId(user).Ok? && ExtractUserId(user).value !in old(userClients) ==>
        r.Ok? && fresh(r.value) && r.value.userId == ExtractUserId(user).value && !r.value.connected &&
        userClients == old(userClients)[ExtractUserId(user).value := r.value]
    {
      var resolved := ExtractUserId(user);
      if resolved.Err? {
        return Err(InvalidUser(resolved.error));
      }
      var id := resolved.value;
      if id in userClients {
        return Err(AlreadyRegistered(AlreadyRegisteredMessage(id)));
      }
      var client := new UserClient(id);
      userClients := userClients[id := client];
      r := Ok(client);
    }

    /** removeUser: an absent id is left alone; a present one has its client
        disconnected and detached, then only its entry is deleted. A client
        that was connected reports the disconnect (with the `reason` and
        `reconnect` the Centrifugo library gives it) while its relay is still
        attached, so the events client re-emits it once for that user. */
    method RemoveUser(user: UserIdResolvable, reason: string, reconnect: bool) returns (r: Outcome<ResolveError>)
      requires Valid()
      modifies this, userClients.Values
      ensures Valid()
      ensures ExtractUserId(user).Ok? && ExtractUserId(user).value in old(userClients) &&
              old(userClients[ExtractUserId(user).value].connected) ==>
        emitted == old(emitted) + [Disconnected(ExtractUserId(user).value, reason, reconnect)]
      ensures !(ExtractUserId(user).Ok? && ExtractUserId(user).value in old(userClients) &&
                old(userClients[ExtractUserId(user).value].connected)) ==>
        emitted == old(emitted)
      ensures ExtractUserId(user).Err? ==> r == Fail(ExtractUserId(user).error) && userClients == old(userClients)
      ensures ExtractUserId(user).Ok? ==> r.Pass? && userClients == old(userClients) - {ExtractUserId(user).value}
      ensures ExtractUserId(user).Ok? && ExtractUserId(user).value in old(userClients) ==>
        var closed := old(userClients)[ExtractUserId(user).value];
        !closed.connected && !closed.relaying
      ensures forall c :: c in old(userClients.Values) && (ExtractUserId(user).Err? || c.userId != ExtractUserId(user).value) ==>
        c.connected == old(c.connected) && c.relaying == old(c.relaying)
    {
      var resolved := ExtractUserId(user);
      if resolved.Err? {
        return Fail(resolved.error);
      }
      var id := resolved.value;
      r := Pass;
      if id !in userClients {
        return;
      }
      var client := userClients[id];
      if client.connected {
        RelayDisconnect(client, reason, reconnect);
      }
      client.Close();
      userClients := userClients - {id};
    }

    /** The onConnect relay of a per-user client: re-emitted with its id
        while the relay is attached. */
    method RelayConnect(client: UserClient)
      modifies this
      ensures userClients == old(userClients)
      ensures emitted == old(emitted) + (if client.relaying then [Connected(client.userId)] else [])
    {
      if client.relaying {
        emitted := emitted + [Connected(client.userId)];
      }
    }

    /** The onDisconnect relay, carrying the reason and reconnect flag. */
    method RelayDisconnect(client: UserClient, reason: string, reconnect: bool)
      modifies this
      ensures userClients == old(userClients)
      ensures emitted == old(emitted) + (if client.relaying then [Disconnected(client.userId, reason, reconnect)] else [])
    {
      if client.relaying {
        emitted := emitted + [Disconnected(client.userId, reason, reconnect)];
      }
    }

    /** onDonation / onGoalUpdate / onPollUpdate: they fail exactly when
        getUserClient fails, and otherwise listen on that user's client. */
    function On(user: UserIdResolvable, kind: EventKind): (r: Result<Listener, EventsError>)
      reads this
      ensures r.Err? <==> GetUserClient(user).Err?
      ensures r.Err? ==> r.error == GetUserClient(user).error
      ensures r.Ok? ==> r.value == Listener(GetUserClient(user).value.userId, kind)
    {
      match GetUserClient(user)
      case Err(e) => Err(e)
      case Ok(client) => Ok(Listener(client.userId, kind))
    }
  }

  /** Registering an id twice fails the second time, and removing it makes
      room for it again. */
  method AddRemoveAdd(userId: nat) returns (first: Result<UserClient, EventsError>, second: Result<UserClient, EventsError>,
                                            third: Result<UserClient, EventsError>)
    ensures first.Ok? && first.value.userId == userId
    ensures second == Err(AlreadyRegistered(AlreadyRegisteredMessage(userId)))
    ensures third.Ok? && third.value != first.value && !first.value.relaying
  {
    var events := new EventsClient();
    var user := UserNumber(userId);
    first := events.AddUser(user);
    second := events.AddUser(user);
    var _ := events.RemoveUser(user, "client", false);
    third := events.AddUser(user);
  }

  /** A removed user's client no longer relays its connection events, and
      listening for that user fails as unregistered. */
  method RemovedUserIsSilent(userId: nat) returns (listened: Result<Listener, EventsError>, stillRelaying: bool)
    ensures listened == Err(NotRegistered(NotRegisteredMessage(userId)))
    ensures !stillRelaying
  {
    var events := new EventsClient();
    var user := UserNumber(userId);
    var added := events.AddUser(user);
    var client := added.value;
    var _ := events.RemoveUser(user, "client", false);
    ghost var before := events.emitted;
    events.RelayConnect(client);
    assert events.emitted == before;
    listened := events.On(user, DonationEvents);
    stillRelaying := client.relaying;
  }

  /** A user whose client connects gets one Connected event, and removing
      the user then reports one Disconnected event for them. */
  method RemoveConnectedUser(userId: nat, reason: string, reconnect: bool) returns (events: seq<RelayedEvent>)
    ensures events == [Connected(userId), Disconnected(userId, reason, reconnect)]
  {
    var eventsClient := new EventsClient();
    var user := UserNumber(userId);
    var added := eventsClient.AddUser(user);
    var client := added.value;
    client.Open();
    eventsClient.RelayConnect(client);
    var _ := eventsClient.RemoveUser(user, reason, reconnect);
    events := eventsClient.emitted;
  }
}
