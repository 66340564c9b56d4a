/**
 * The per-node routing layer: the map from application key to the socket this node
 * holds, the list of global tag subscriptions, and the broker listener that turns
 * `SEND_CHANNEL` / `SOCKET_CLOSE_CHANNEL` messages into calls on a locally held socket
 * and re-emits messages that arrive on a global tag channel.
 *
 * `send(key, message)` and `close(key)` do not look at the map: they publish a request
 * that every node receives, and only a node holding `key` acts on it.
 */
module Wrapper {
  import opened Js
  import opened Constants
  import opened Transport
  import opened RedisPubSub

  /** An entry of `_subscriptionTags`: messages whose field `tagFieldKey` equals `tag` are broadcast. */
  datatype TagSubscription = TagSubscription(tagFieldKey: string, tag: string)

  /** What a node does with one broker message: calls on its sockets and the `'message'` events it emits. */
  datatype Effect = Effect(actions: seq<SocketAction>, events: seq<Value>)

  const NO_EFFECT: Effect := Effect([], [])

  /** A request a node publishes for the whole fleet: `send(key, message)` or `close(key)`. */
  datatype Req = SendReq(key: string, message: string) | CloseReq(key: string)

  /** The payload `{key, message}` that `send` publishes. */
  function SendPayload(key: string, message: string): (p: Value)
    ensures p.Obj? && p.fields.Keys == {"key", "message"}
    ensures Field(p, "key") == Str(key) && Field(p, "message") == Str(message)
  {
    Obj(map["key" := Str(key), "message" := Str(message)])
  }

  /** The payload `{key}` that `close` publishes. */
  function ClosePayload(key: string): (p: Value)
    ensures p.Obj? && p.fields.Keys == {"key"}
    ensures Field(p, "key") == Str(key) && Field(p, "message") == Absent
  {
    Obj(map["key" := Str(key)])
  }

  /** The channel and payload published for a request. */
  function Publication(req: Req): (m: Message)
    ensures req.SendReq? ==> m == Message(SEND_CHANNEL, SendPayload(req.key, req.message))
    ensures req.CloseReq? ==> m == Message(SOCKET_CLOSE_CHANNEL, ClosePayload(req.key))
  {
    match req
    case SendReq(key, message) => Message(SEND_CHANNEL, SendPayload(key, message))
    case CloseReq(key) => Message(SOCKET_CLOSE_CHANNEL, ClosePayload(key))
  }

  /** The call a request asks the socket's owner to make. */
  function Performed(req: Req, socket: SocketId): SocketAction {
    match req
    case SendReq(_, message) => SendJson(socket, Str(message))
    case CloseReq(_) => SocketAction.Close(socket)
  }

  /** The map entry `_webSocketMap[data.key]` reads: the key is converted to a string first. */
  function TargetKey(payload: Value): string {
    JsString(Field(payload, "key"))
  }

  /**
   * `_handleSendingProcess`: the socket held under `data.key`, if any, is sent `data.message`
   * exactly once; with no such socket nothing happens.
   */
  function SendingProcess(payload: Value, sockets: map<string, SocketId>): (r: seq<SocketAction>)
    ensures |r| == (if TargetKey(payload) in sockets then 1 else 0)
    ensures forall a :: a in r ==> a == SendJson(sockets[TargetKey(payload)], Field(payload, "message"))
  {
    var key := TargetKey(payload);
    if key in sockets then [SendJson(sockets[key], Field(payload, "message"))] else []
  }

  /**
   * `_handleSocketCloseProcess`: the socket held under `data.key`, if any, is closed exactly
   * once; with no such socket nothing happens.
   */
  function SocketCloseProcess(payload: Value, sockets: map<string, SocketId>): (r: seq<SocketAction>)
    ensures |r| == (if TargetKey(payload) in sockets then 1 else 0)
    ensures forall a :: a in r ==> a == SocketAction.Close(sockets[TargetKey(payload)])
  {
    var key := TargetKey(payload);
    if key in sockets then [SocketAction.Close(sockets[key])] else []
  }

  /**
   * The broker listener installed by `init`: three independent tests on the channel name.
   * Because the channel names are disjoint, exactly one handler (or none) runs: sends only
   * on `SEND_CHANNEL`, closes only on `SOCKET_CLOSE_CHANNEL`, one `'message'` event carrying
   * `data.message` on a global tag channel, and nothing on any other channel.
   */
  function Route(channel: string, payload: Value, sockets: map<string, SocketId>): (e: Effect)
    ensures channel == SEND_CHANNEL ==> e == Effect(SendingProcess(payload, sockets), [])
    ensures channel == SOCKET_CLOSE_CHANNEL ==> e == Effect(SocketCloseProcess(payload, sockets), [])
    ensures StartsWith(channel, GLOBAL_PREFIX) ==> e == Effect([], [Field(payload, "message")])
    ensures channel != SEND_CHANNEL && channel != SOCKET_CLOSE_CHANNEL && !StartsWith(channel, GLOBAL_PREFIX)
            ==> e == NO_EFFECT
  {
    FixedChannelsAreDistinct();
    GlobalChannelHasPrefix("");
    Effect(
      (if channel == SEND_CHANNEL then SendingProcess(payload, sockets) else [])
      + (if channel == SOCKET_CLOSE_CHANNEL then SocketCloseProcess(payload, sockets) else []),
      if StartsWith(channel, GlobalMessageSubscribe("")) then [Field(payload, "message")] else [])
  }

  /**
   * Round trip: what `send`/`close` publishes, delivered to a node, makes exactly the socket
   * that node holds under the key perform the request, and does nothing on a node that
   * does not hold the key.
   */
  lemma RoundTrip(req: Req, sockets: map<string, SocketId>)
    ensures var m := Publication(req);
      Route(m.channel, m.payload, sockets)
        == if req.key in sockets then Effect([Performed(req, sockets[req.key])], []) else NO_EFFECT
  {
    var m := Publication(req);
    assert TargetKey(m.payload) == req.key;
    FixedChannelsAreDistinct();
  }

  /** The socket calls a fleet of nodes makes when a broker message is delivered to all of them. */
  function FleetActions(fleet: seq<map<string, SocketId>>, m: Message): seq<SocketAction> {
    if fleet == [] then [] else Route(m.channel, m.payload, fleet[0]).actions + FleetActions(fleet[1..], m)
  }

  /** A request for a key that no node holds makes no socket call anywhere. */
  lemma {:induction false} FleetUnowned(req: Req, fleet: seq<map<string, SocketId>>)
    requires forall j :: 0 <= j < |fleet| ==> req.key !in fleet[j]
    ensures FleetActions(fleet, Publication(req)) == []
  {
    if fleet != [] {
      RoundTrip(req, fleet[0]);
      FleetUnowned(req, fleet[1..]);
    }
  }

  /**
   * A request for a key held by exactly one node of the fleet results in exactly one socket
   * call in the whole fleet: on the owner's socket, with the message as published.
   */
  lemma {:induction false} FleetOwnerActsOnce(req: Req, fleet: seq<map<string, SocketId>>, owner: nat)
    requires owner < |fleet| && req.key in fleet[owner]
    requires forall j :: 0 <= j < |fleet| && j != owner ==> req.key !in fleet[j]
    ensures FleetActions(fleet, Publication(req)) == [Performed(req, fleet[owner][req.key])]
  {
    RoundTrip(req, fleet[0]);
    if owner == 0 {
      FleetUnowned(req, fleet[1..]);
    } else {
      FleetOwnerActsOnce(req, fleet[1..], owner - 1);
    }
  }

  class ServerWrapper {
    /** `_webSocketMap`: key to the socket this node holds. */
    var webSocketMap: map<string, SocketId>
    /** `_subscriptionTags`, in subscription order. */
    var subscriptionTags: seq<TagSubscription>
    /** The `'message'` events emitted for global tag messages, in order. */
    var events: seq<Value>
    const pubSub: PubSub
    const transport: SocketLog

    constructor(pubSub: PubSub, transport: SocketLog)
      ensures webSocketMap == map[] && subscriptionTags == [] && events == []
      ensures this.pubSub == pubSub && this.transport == transport
    {
      webSocketMap, subscriptionTags, events := map[], [], [];
      this.pubSub, this.transport := pubSub, transport;
    }

    /** `init`: subscribes the send channel, then the close channel. */
    method Init()
      requires pubSub.Initialized()
      modifies pubSub
      ensures pubSub.subscribed == old(pubSub.subscribed) + [SEND_CHANNEL, SOCKET_CLOSE_CHANNEL]
      ensures pubSub.published == old(pubSub.published) && pubSub.Initialized()
    {
      pubSub.Subscribe(SEND_CHANNEL);
      pubSub.Subscribe(SOCKET_CLOSE_CHANNEL);
    }

    /** The broker listener `init` installs. */
    method OnMessage(channel: string, payload: Value)
      modifies transport, this`events
      ensures transport.actions == old(transport.actions) + Route(channel, payload, webSocketMap).actions
      ensures events == old(events) + Route(channel, payload, webSocketMap).events
    {
      if channel == SEND_CHANNEL {
        HandleSendingProcess(payload);
      }
      if channel == SOCKET_CLOSE_CHANNEL {
        HandleSocketCloseProcess(payload);
      }
      if StartsWith(channel, GlobalMessageSubscribe("")) {
        HandleGlobalMessage(channel, payload);
      }
    }

    method HandleSendingProcess(payload: Value)
      modifies transport
      ensures transport.actions == old(transport.actions) + SendingProcess(payload, webSocketMap)
    {
      var key := TargetKey(payload);
      if key in webSocketMap {
        transport.Send(webSocketMap[key], Field(payload, "message"));
      }
    }

    method HandleSocketCloseProcess(payload: Value)
      modifies transport
      ensures transport.actions == old(transport.actions) + SocketCloseProcess(payload, webSocketMap)
    {
      var key := TargetKey(payload);
      if key in webSocketMap {
        transport.Close(webSocketMap[key]);
      }
    }

    /** `_handleGlobalMessage`: emits one `'message'` event carrying `data.message`. */
    method HandleGlobalMessage(channel: string, payload: Value)
      modifies this`events
      ensures events == old(events) + [Field(payload, "message")]
    {
      events := events + [Field(payload, "message")];
    }

    /** Keeps earlier tag entries, appends the new one and subscribes its channel. */
    method SubscribeToGlobalMessage(tagFieldKey: string, tag: string)
      requires pubSub.Initialized()
      modifies this`subscriptionTags, pubSub
      ensures subscriptionTags == old(subscriptionTags) + [TagSubscription(tagFieldKey, tag)]
      ensures pubSub.subscribed == old(pubSub.subscribed) + [GlobalMessageSubscribe(tag)]
      ensures pubSub.published == old(pubSub.published) && pubSub.Initialized()
    {
      subscriptionTags := subscriptionTags + [TagSubscription(tagFieldKey, tag)];
      pubSub.Subscribe(GlobalMessageSubscribe(tag));
    }

    /**
     * `storeWebSocket`: the key now names `webSocket`, replacing any earlier socket under it
     * (which is not closed); every other entry is unchanged.
     */
    method StoreWebSocket(key: string, webSocket: SocketId)
      modifies this`webSocketMap
      ensures webSocketMap == old(webSocketMap)[key := webSocket]
      ensures key in webSocketMap && webSocketMap[key] == webSocket
      ensures forall k :: k != key ==> (k in webSocketMap <==> k in old(webSocketMap))
      ensures forall k :: k != key && k in webSocketMap ==> webSocketMap[k] == old(webSocketMap)[k]
    {
      webSocketMap := webSocketMap[key := webSocket];
    }

    method GetWebSocketMap() returns (m: map<string, SocketId>)
      ensures m == webSocketMap
    {
      m := webSocketMap;
    }

    /** `send`: publishes `{key, message}` on the send channel; the map is not consulted. */
    method Send(key: string, message: string)
      requires pubSub.Initialized()
      modifies pubSub
      ensures pubSub.published == old(pubSub.published) + [Publication(SendReq(key, message))]
      ensures pubSub.subscribed == old(pubSub.subscribed) && pubSub.Initialized()
    {
      pubSub.Publish(SEND_CHANNEL, SendPayload(key, message));
    }

    /** `close`: publishes `{key}` on the close channel; the map is not consulted. */
    method Close(key: string)
      requires pubSub.Initialized()
      modifies pubSub
      ensures pubSub.published == old(pubSub.published) + [Publication(CloseReq(key))]
      ensures pubSub.subscribed == old(pubSub.subscribed) && pubSub.Initialized()
    {
      pubSub.Publish(SOCKET_CLOSE_CHANNEL, ClosePayload(key));
    }
  }
}
