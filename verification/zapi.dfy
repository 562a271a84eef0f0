/** `Whatsapp::IncomingMessageZapiService#perform`: a Z-API webhook is dropped when its
    `type` is blank, otherwise announced as a provider event and routed by its `type`
    to one of the four callback handlers, or logged as unsupported. */
module Zapi {
  import opened Base
  import opened MessageStatus
  import Phone

  datatype Connection = Open | Close

  /** The channel's `provider_connection` hash: the `connection` and `error` keys. */
  datatype ProviderConnection = ProviderConnection(connection: Option<Connection>, error: Option<string>)

  datatype Channel = Channel(phoneNumber: string, providerConnection: ProviderConnection)

  type ChannelId = nat

  datatype Inbox = Inbox(channelId: ChannelId)

  /** The channels, and the messages of the inbox keyed by their provider id. */
  datatype Store = Store(channels: map<ChannelId, Channel>, messages: map<string, Message>)

  /** The webhook parameters the handlers read. A missing `ids` is the empty list and
      a missing `status` or `phone` is the empty string. */
  datatype Params = Params(
    eventType: Option<string>,
    ids: seq<string>,
    status: string,
    messageId: Option<string>,
    phone: string,
    error: Option<string>,
    moment: Option<int>)

  /** What a run emits besides the store: the `PROVIDER_EVENT_RECEIVED` dispatch,
      logger warnings, and the call that disconnects the channel at the provider. */
  datatype Effect =
    | ProviderEventReceived(event: string, payload: Params, at: int)
    | Warn(line: string)
    | DisconnectProvider(channelId: ChannelId)

  datatype Outcome = Outcome(store: Store, effects: seq<Effect>)

  datatype Handler = MessageStatusCallback | DeliveryCallback | ConnectedCallback | DisconnectedCallback

  /** The event `type` each handler answers to. */
  function EventType(h: Handler): string {
    match h
    case MessageStatusCallback => "MessageStatusCallback"
    case DeliveryCallback => "DeliveryCallback"
    case ConnectedCallback => "ConnectedCallback"
    case DisconnectedCallback => "DisconnectedCallback"
  }

  /** The name of the service method that implements each handler. It only names the
      handlers: routing goes through `Route` and `RunHandler`, not through these names. */
  function MethodName(h: Handler): string {
    match h
    case MessageStatusCallback => "process_message_status_callback"
    case DeliveryCallback => "process_delivery_callback"
    case ConnectedCallback => "process_connected_callback"
    case DisconnectedCallback => "process_disconnected_callback"
  }

  /** Routing of an event `type`; `None` for a type no handler answers to. */
  function Route(t: string): (r: Option<Handler>)
    ensures r.Some? ==> EventType(r.value) == t
    ensures r.None? ==> forall h: Handler :: EventType(h) != t
  {
    if t == "MessageStatusCallback" then Some(MessageStatusCallback)
    else if t == "DeliveryCallback" then Some(DeliveryCallback)
    else if t == "ConnectedCallback" then Some(ConnectedCallback)
    else if t == "DisconnectedCallback" then Some(DisconnectedCallback)
    else None
  }

  /** Every handler is reached by its own event type. */
  lemma RouteEventType(h: Handler)
    ensures Route(EventType(h)) == Some(h)
  {
  }

  /** The event types of the handler examples reach the methods they describe. */
  lemma RoutesToNamedMethods()
    ensures Route("MessageStatusCallback").Some? && MethodName(Route("MessageStatusCallback").value) == "process_message_status_callback"
    ensures Route("DeliveryCallback").Some? && MethodName(Route("DeliveryCallback").value) == "process_delivery_callback"
    ensures Route("ConnectedCallback").Some? && MethodName(Route("ConnectedCallback").value) == "process_connected_callback"
    ensures Route("DisconnectedCallback").Some? && MethodName(Route("DisconnectedCallback").value) == "process_disconnected_callback"
  {
  }

  const UnsupportedEventPrefix: string := "Z-API unsupported event: "

  /** The translated `wrong_phone_number` error text, kept opaque. */
  const WrongPhoneNumber: string := "errors.inboxes.channel.provider_connection.wrong_phone_number"

  /** The store with only the given channel's `provider_connection` replaced. */
  function SetConnection(store: Store, id: ChannelId, pc: ProviderConnection): (r: Store)
    requires id in store.channels
    ensures r.messages == store.messages
    ensures r.channels.Keys == store.channels.Keys
    ensures r.channels[id] == store.channels[id].(providerConnection := pc)
    ensures forall other | other in store.channels && other != id :: r.channels[other] == store.channels[other]
  {
    store.(channels := store.channels[id := store.channels[id].(providerConnection := pc)])
  }

  /** `ConnectedCallback`: an `open` connection when the reported phone is the channel's
      own number, otherwise a `close` connection with the wrong-number error and a
      disconnect at the provider. */
  function ProcessConnected(inbox: Inbox, store: Store, p: Params): (r: Outcome)
    requires inbox.channelId in store.channels
    ensures r.store.messages == store.messages
    ensures r.store.channels.Keys == store.channels.Keys
    ensures forall other | other in store.channels && other != inbox.channelId :: r.store.channels[other] == store.channels[other]
    ensures r.store.channels[inbox.channelId].phoneNumber == store.channels[inbox.channelId].phoneNumber
    ensures var pc := r.store.channels[inbox.channelId].providerConnection;
            if Phone.SameNumber(store.channels[inbox.channelId].phoneNumber, p.phone)
            then pc == ProviderConnection(Some(Open), None) && r.effects == []
            else pc == ProviderConnection(Some(Close), Some(WrongPhoneNumber)) && r.effects == [DisconnectProvider(inbox.channelId)]
  {
    var channel := store.channels[inbox.channelId];
    if Phone.SameNumber(channel.phoneNumber, p.phone) then
      Outcome(SetConnection(store, inbox.channelId, ProviderConnection(Some(Open), None)), [])
    else
      Outcome(SetConnection(store, inbox.channelId, ProviderConnection(Some(Close), Some(WrongPhoneNumber))),
              [DisconnectProvider(inbox.channelId)])
  }

  /** `DisconnectedCallback`: a `close` connection on the inbox's channel, whatever else the webhook carries. */
  function ProcessDisconnected(inbox: Inbox, store: Store): (r: Outcome)
    requires inbox.channelId in store.channels
    ensures r.effects == []
    ensures r.store.messages == store.messages
    ensures r.store.channels.Keys == store.channels.Keys
    ensures forall other | other in store.channels && other != inbox.channelId :: r.store.channels[other] == store.channels[other]
    ensures r.store.channels[inbox.channelId].providerConnection.connection == Some(Close)
    ensures r.store.channels[inbox.channelId] ==
              store.channels[inbox.channelId].(providerConnection := ProviderConnection(Some(Close), None))
  {
    Outcome(SetConnection(store, inbox.channelId, ProviderConnection(Some(Close), None)), [])
  }

  /** The handler's work on the store. */
  function RunHandler(h: Handler, inbox: Inbox, store: Store, p: Params): (r: Outcome)
    requires inbox.channelId in store.channels
    ensures r.store.channels.Keys == store.channels.Keys
    ensures forall other | other in store.channels && other != inbox.channelId :: r.store.channels[other] == store.channels[other]
    ensures r.store.messages.Keys == store.messages.Keys
    ensures h in {ConnectedCallback, DisconnectedCallback} ==> r.store.messages == store.messages
    ensures h in {MessageStatusCallback, DeliveryCallback} ==> r.store.channels == store.channels
  {
    match h
    case MessageStatusCallback =>
      var u := ProcessStatusCallback(store.messages, p.ids, p.status);
      Outcome(store.(messages := u.messages), seq(|u.warnings|, i requires 0 <= i < |u.warnings| => Warn(u.warnings[i])))
    case DeliveryCallback =>
      Outcome(store.(messages := ProcessDeliveryCallback(store.messages, p.messageId, p.error, p.moment)), [])
    case ConnectedCallback => ProcessConnected(inbox, store, p)
    case DisconnectedCallback => ProcessDisconnected(inbox, store)
  }

  /** The service's `perform`. */
  function Perform(inbox: Inbox, p: Params, store: Store, now: int): (r: Outcome)
    requires inbox.channelId in store.channels
    ensures BlankOpt(p.eventType) ==> r == Outcome(store, [])
    ensures !BlankOpt(p.eventType) ==>
              && 1 <= |r.effects|
              && r.effects[0] == ProviderEventReceived(p.eventType.value, p, now)
              && (Route(p.eventType.value).None? ==>
                    r == Outcome(store, [r.effects[0], Warn(UnsupportedEventPrefix + p.eventType.value)]))
    ensures r.store.channels.Keys == store.channels.Keys
    ensures forall other | other in store.channels && other != inbox.channelId :: r.store.channels[other] == store.channels[other]
    ensures r.store.messages.Keys == store.messages.Keys
  {
    if BlankOpt(p.eventType) then Outcome(store, [])
    else
      var t := p.eventType.value;
      var announced := ProviderEventReceived(t, p, now);
      match Route(t)
      case None => Outcome(store, [announced, Warn(UnsupportedEventPrefix + t)])
      case Some(h) =>
        var handled := RunHandler(h, inbox, store, p);
        Outcome(handled.store, [announced] + handled.effects)
  }

  /** Parameters that carry nothing but an event type. */
  function OnlyType(t: string): Params {
    Params(Some(t), [], "", None, "", None, None)
  }

  /** A routed event runs exactly its handler after the dispatch, and nothing is warned about routing. */
  lemma PerformRoutes(inbox: Inbox, p: Params, store: Store, now: int, h: Handler)
    requires inbox.channelId in store.channels
    requires p.eventType == Some(EventType(h))
    ensures var handled := RunHandler(h, inbox, store, p);
            Perform(inbox, p, store, now) == Outcome(handled.store, [ProviderEventReceived(EventType(h), p, now)] + handled.effects)
  {
    RouteEventType(h);
    assert !Base.Blank(EventType(h)) by {
      assert !Base.IsSpace(EventType(h)[0]);
    }
  }

  /** A status callback with an unknown code leaves every message as it is and logs exactly the unknown-status line. */
  lemma UnknownStatusIsLoggedNoOp(inbox: Inbox, p: Params, store: Store, now: int)
    requires inbox.channelId in store.channels
    requires p.eventType == Some("MessageStatusCallback")
    requires FromZapiCode(p.status).None?
    ensures Perform(inbox, p, store, now) ==
            Outcome(store, [ProviderEventReceived("MessageStatusCallback", p, now), Warn(UnknownStatusPrefix + p.status)])
  {
    PerformRoutes(inbox, p, store, now, MessageStatusCallback);
    var u := ProcessStatusCallback(store.messages, p.ids, p.status);
    assert store.(messages := u.messages) == store;
  }

  /** A status callback brings every listed stored message to the higher of its
      current status and the reported one, and leaves every other message alone. */
  lemma StatusCallbackPerMessage(inbox: Inbox, p: Params, store: Store, now: int, s: Status)
    requires inbox.channelId in store.channels
    requires p.eventType == Some("MessageStatusCallback")
    requires FromZapiCode(p.status) == Some(s)
    ensures var after := Perform(inbox, p, store, now).store;
            && after.channels == store.channels
            && (forall id | id in store.messages && id in p.ids :: after.messages[id] == Reconciled(store.messages[id], s))
            && (forall id | id in store.messages && id !in p.ids :: after.messages[id] == store.messages[id])
  {
    PerformRoutes(inbox, p, store, now, MessageStatusCallback);
  }

  /** A delivery callback for an id that is not stored changes no message and raises nothing. */
  lemma DeliveryForUnknownMessage(inbox: Inbox, p: Params, store: Store, now: int)
    requires inbox.channelId in store.channels
    requires p.eventType == Some("DeliveryCallback")
    requires p.messageId.Some? && p.messageId.value !in store.messages
    ensures Perform(inbox, p, store, now) == Outcome(store, [ProviderEventReceived("DeliveryCallback", p, now)])
  {
    PerformRoutes(inbox, p, store, now, DeliveryCallback);
    assert store.(messages := store.messages) == store;
  }

  /** A disconnect needs nothing but the event type: the store it leaves behind is the
      same as for a webhook with only `type`, and only the inbox's channel changes. */
  lemma DisconnectedNeedsOnlyType(inbox: Inbox, p: Params, store: Store, now: int)
    requires inbox.channelId in store.channels
    requires p.eventType == Some("DisconnectedCallback")
    ensures var after := Perform(inbox, p, store, now).store;
            && after == Perform(inbox, OnlyType("DisconnectedCallback"), store, now).store
            && after.channels[inbox.channelId].providerConnection.connection == Some(Close)
            && after.messages == store.messages
  {
    PerformRoutes(inbox, p, store, now, DisconnectedCallback);
    PerformRoutes(inbox, OnlyType("DisconnectedCallback"), store, now, DisconnectedCallback);
  }

  /** A connection callback disconnects the provider exactly when the phone does not match. */
  lemma ConnectedDisconnectsOnlyOnMismatch(inbox: Inbox, p: Params, store: Store, now: int)
    requires inbox.channelId in store.channels
    requires p.eventType == Some("ConnectedCallback")
    ensures var r := Perform(inbox, p, store, now);
            (DisconnectProvider(inbox.channelId) in r.effects) <==> !Phone.SameNumber(store.channels[inbox.channelId].phoneNumber, p.phone)
  {
    PerformRoutes(inbox, p, store, now, ConnectedCallback);
  }
}
