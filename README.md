# websocket-scaler: a verified model of the per-node routing core

websocket-scaler lets many nodes of a WebSocket server act as one. Each node keeps a
map from application key to the socket it holds. A `send(key, message)` or
`close(key)` on any node is published on a Redis channel. Every node receives it, and
only the node holding the key acts on its socket. Other parts of the core:

- a heartbeat pings every socket, then closes those that stay silent;
- a message from a client is broadcast on global tag channels when one of its fields
  carries a subscribed tag;
- an AMQP fan-out lets a caller run a function on every node and collect the replies
  that carry its correlation id;
- an agent controller derives a device key from a merchant id, a register number and
  a MAC address, and registers the agent socket under that key;
- both Redis adapters share a reconnect back-off.

The project models these parts in Dafny, one module per source file:

| module | file | source |
|---|---|---|
| `Js` | `js.dfy` | The JavaScript semantics the code relies on: parsed JSON values, truthiness, property access, conversion to string, `trim`. |
| `Constants` | `constants.dfy` | `src/utils/constants.js` |
| `Transport` | `transport.dfy` | The socket calls (`send`, `close`, `ping`), recorded in a shared log. |
| `RedisClient` | `redis_client.dfy` | `_retry` and `createRedisClient`. The store and pub/sub adapters define these identically. |
| `RedisStore` | `redis_store.dfy` | `src/services/store/redisStore.js` |
| `RedisPubSub` | `redis_pubsub.dfy` | `src/services/pubSub/redisPubSub.js` |
| `Wrapper` | `server_wrapper.dfy` | `src/core/serverWrapper.js` |
| `WsServer` | `ws_server.dfy` | `src/services/ws/wsServer.js` |
| `AmqpRpc` | `amqp_rpc.dfy` | `src/services/rpc/amqpRpc.js` |
| `SocketIdentity` | `socket_identity.dfy` | `src/integration/pulse_integration/server/socketIdController.js` |
| `AgentWsController` | `agent_ws_controller.dfy` | `src/integration/pulse_integration/server/agentWsController.js` |

## How the code is modelled

- **Classes where the source mutates state.** A module whose source updates state in
  place becomes a class whose methods reassign its fields. Each method's `ensures`
  ties the new state to a pure function of the old one. The lemmas about those
  functions carry the properties.
- **Sockets.** A socket is an opaque `SocketId`. The properties the code sets on a
  socket object live in maps keyed by socket, held by the class that sets them:
  `healthy`/`pingCounter` in `WsServer.WebSocketServer.health`, and `identity` in
  `SocketIdentity.SocketIdController.identities`. Two map keys may name the same
  socket, as in JavaScript.
- **Exceptions.** A statement that dereferences something undefined ends in a
  `TypeError` result (`Js.Result`, `Js.Outcome`) instead of being left out. Examples:
  `.trim()` on a number, the controller's missing `logger`, and `this.server(...)`
  called as a function.
- **Threshold.** The heartbeat threshold is a constructor parameter of
  `WsServer.WebSocketServer`:
  - `None` is the code as written (see Findings);
  - `Some(HEALTHY_PING_COUNT_THRESHOLD)` is the evident intent.
- **Registry interface.** The identity controller and the agent controller call
  `getWebSocket(key)`, `storeWebSocket(key, socket, metadata)` and
  `removeWebSocket(key)` on the server handed to them. `SocketIdentity.DeviceServer`
  is an assumed implementation of that interface: a map from property name to the
  value stored (a socket, or `undefined`) and its metadata. Nothing in the repository
  implements it. The object actually handed to both controllers is the `Server` of
  `src/index.js` (agentWsServer.js:32, :45). That object forwards `getWebSocket` and
  `removeWebSocket` (index.js:119, :167) to `ServerWrapper` methods that do not exist,
  and its `storeWebSocket` drops the metadata (index.js:109-110). The properties of
  the identity and agent controllers therefore hold for a server that implements the
  interface, not for the server as wired.
- **Socket-less messages.** A message relayed from a global tag channel reaches the
  agent controller with no socket (serverWrapper.js:193, index.js:86-87,
  agentWsServer.js:53-59). The agent handlers therefore take an `Option<SocketId>`:
  closing a missing socket throws, and a JOIN without a socket stores `undefined`.

### Behaviour worth noting

- **Remote calls.** A remote call has no timeout, and every reply carrying the
  caller's correlation id runs the callback, however many arrive. Without one the
  callback never runs (`AmqpRpc.FleetAnswers`, `AmqpRpc.NoMatchNoCallback`).
- **`send`/`close`.** These travel over Redis publish/subscribe. Their callers get no
  result or error.
- **Closing.** Closing a socket, by heartbeat or on request, does not remove its key
  from the map. The key/value store adapter is not wired to the registry.
- **Failed `send`.** A failed `send` is only logged. No reply is sent for it.

## Model

| member | source | states |
|---|---|---|
| Js.Trim | src/integration/pulse_integration/server/socketIdController.js:66-67 | `trim` drops only white space and line terminators, from both ends, and keeps a contiguous middle part that neither starts nor ends with white space |
| Js.TrimIdempotent | src/integration/pulse_integration/server/socketIdController.js:66-67 | trimming an already trimmed id changes nothing |
| Js.IntToStringInjective | src/integration/pulse_integration/server/socketIdController.js:66-67 | a numeric register number is printed so that distinct numbers give distinct text (via the parse-back round trip) |
| Constants.GlobalMessageSubscribe | src/utils/constants.js:11 | a tag's channel is the prefix `GLOBAL_MESSAGE_SUBSCRIBE_` followed by exactly the tag |
| Constants.GlobalChannelHasPrefix | src/utils/constants.js:11 | the channel of the empty tag is the prefix itself, and every tag channel starts with it |
| Constants.GlobalMessageSubscribeInjective | src/utils/constants.js:11 | different tags get different channels |
| Constants.FixedChannelsAreDistinct | src/utils/constants.js:8-11 | the send and close channels differ, and neither starts with the global prefix |
| Constants.ResponsesAreDistinct | src/utils/constants.js:21-22 | the success and failure reply bodies differ |
| RedisClient.Retry | src/services/store/redisStore.js:49-59 | refuses iff the error code is `ECONNREFUSED`; otherwise stops iff attempt > 10; otherwise waits attempt × 500 ms, capped at 3000 ms (the pub/sub adapter's `_retry`, src/services/pubSub/redisPubSub.js:55-65, is identical) |
| RedisClient.RetryDelayNonDecreasing | src/services/store/redisStore.js:58 | a later attempt never waits less than an earlier one |
| RedisClient.TotalBackoffBeforeGivingUp | src/services/store/redisStore.js:53-58 | a client failing for reasons other than refusal waits 22 500 ms in all before it gives up on attempt 11 |
| RedisClient.CreateRedisClient | src/services/store/redisStore.js:35-41 | the created client has the given host and port and `_retry` installed |
| RedisStore.GetResult | src/services/store/redisStore.js:83-89 | `get` succeeds iff there is no client error and the reply is present and non-empty, and then passes the reply through |
| RedisStore.Store.Init | src/services/store/redisStore.js:24-27 | the store's client is created with `_retry` installed |
| RedisStore.Store.Set | src/services/store/redisStore.js:67-71 | forwards exactly `(key, value)` to the client, once, with nothing else changed |
| RedisStore.Store.Get | src/services/store/redisStore.js:80-90 | asks the client for the key once and hands the callback `GetResult` of the answer |
| RedisPubSub.PubSub.Init | src/services/pubSub/redisPubSub.js:25-33 | creates both clients for the given host and port, neither with `_retry` |
| RedisPubSub.PubSub.Publish | src/services/pubSub/redisPubSub.js:73-77 | forwards exactly `(channel, payload)` to the publisher client, once |
| RedisPubSub.PubSub.Subscribe | src/services/pubSub/redisPubSub.js:84-87 | forwards exactly `channel` to the subscriber client, once |
| RedisPubSub.PubSub.OnSubscriberMessage | src/services/pubSub/redisPubSub.js:30-32 | every `(channel, message)` that arrives is re-emitted unchanged |
| Wrapper.SendPayload | src/core/serverWrapper.js:223-225 | the send payload has exactly the fields `key` and `message`, holding the arguments |
| Wrapper.ClosePayload | src/core/serverWrapper.js:233-235 | the close payload has exactly the field `key` |
| Wrapper.Publication | src/core/serverWrapper.js:223-235 | a send request goes on `SEND_CHANNEL` and a close request on `SOCKET_CLOSE_CHANNEL` |
| Wrapper.SendingProcess | src/core/serverWrapper.js:125-139 | the socket under `data.key` is sent `data.message` exactly once; with no such socket nothing happens |
| Wrapper.SocketCloseProcess | src/core/serverWrapper.js:155-164 | the socket under `data.key` is closed exactly once; with no such socket nothing happens |
| Wrapper.Route | src/core/serverWrapper.js:35-51 | only `SEND_CHANNEL` sends; only `SOCKET_CLOSE_CHANNEL` closes; a global tag channel gives one event carrying `data.message`; any other channel does nothing |
| Wrapper.RoundTrip | src/core/serverWrapper.js:223-235 | what `send`/`close` publishes, delivered to a node, makes exactly the socket under the key perform the request, and does nothing on a node without the key |
| Wrapper.FleetUnowned | src/core/serverWrapper.js:131 | a request for a key no node holds makes no socket call anywhere in the fleet |
| Wrapper.FleetOwnerActsOnce | src/core/serverWrapper.js:125-164 | a request for a key held by one node makes exactly one socket call in the fleet, on that node's socket |
| Wrapper.ServerWrapper.Init | src/core/serverWrapper.js:29-33 | subscribes the send channel, then the close channel |
| Wrapper.ServerWrapper.OnMessage | src/core/serverWrapper.js:35-51 | the listener's socket calls and events are exactly those `Route` gives for the node's map |
| Wrapper.ServerWrapper.HandleSendingProcess | src/core/serverWrapper.js:125-139 | appends exactly `SendingProcess`'s calls to the socket log |
| Wrapper.ServerWrapper.HandleSocketCloseProcess | src/core/serverWrapper.js:155-164 | appends exactly `SocketCloseProcess`'s calls to the socket log |
| Wrapper.ServerWrapper.HandleGlobalMessage | src/core/serverWrapper.js:187-194 | emits one event carrying `data.message` |
| Wrapper.ServerWrapper.SubscribeToGlobalMessage | src/core/serverWrapper.js:173-180 | appends `{tagFieldKey, tag}` after the earlier entries and subscribes the tag's channel |
| Wrapper.ServerWrapper.StoreWebSocket | src/core/serverWrapper.js:202-205 | the key now names the socket, replacing any earlier one; every other entry is unchanged |
| Wrapper.ServerWrapper.GetWebSocketMap | src/core/serverWrapper.js:212-215 | returns the current contents of the map |
| Wrapper.ServerWrapper.Send | src/core/serverWrapper.js:223-225 | publishes exactly one message, `{key, message}` on `SEND_CHANNEL`, without consulting the map |
| Wrapper.ServerWrapper.Close | src/core/serverWrapper.js:233-235 | publishes exactly one message, `{key}` on `SOCKET_CLOSE_CHANNEL`, without consulting the map |
| WsServer.VisitOrderReverses | src/services/ws/wsServer.js:93-94 | both sweeps visit the key snapshot from its last key to its first |
| WsServer.VisitedOnce | src/services/ws/wsServer.js:91-94 | over a snapshot of a map whose keys hold distinct sockets, a sweep visits each of the map's sockets exactly once and no other socket |
| WsServer.PingsInOrder | src/services/ws/wsServer.js:93-97 | the ping sweep issues one ping per visit, in visiting order |
| WsServer.PingsCount | src/services/ws/wsServer.js:97 | a socket is pinged exactly as often as it is visited |
| WsServer.PingAllEffect | src/services/ws/wsServer.js:96-100 | each visited socket ends unhealthy, with its counter (unset read as 0) raised by its number of visits; unvisited sockets keep their fields |
| WsServer.PingSweepCoversMap | src/services/ws/wsServer.js:89-102 | every socket of the map is pinged exactly once and ends unhealthy with one more unanswered ping; other sockets are untouched |
| WsServer.ClosesExactly | src/services/ws/wsServer.js:122-130 | the close sweep only closes, and closes a visited socket once per visit iff it is unhealthy with a counter over the threshold |
| WsServer.CloseSweepCoversMap | src/services/ws/wsServer.js:118-131 | each socket of the map is closed once if unhealthy and over the threshold and otherwise not at all; no socket outside the map is closed |
| WsServer.PongPreventsClose | src/services/ws/wsServer.js:108-111 | a socket that pongs between a ping sweep and the next close sweep is not closed by it |
| WsServer.SilentSocketCounts | src/services/ws/wsServer.js:99-100 | a never-ponging socket has exactly `n` unanswered pings after `n` sweeps, and is selected for closing iff `n` > threshold |
| WsServer.NeverClosedAsWritten | src/services/ws/wsServer.js:125 | with the threshold read from the unset instance field, the close sweep closes nothing |
| WsServer.IntendedEviction | src/utils/constants.js:4 | with threshold 2, a silent socket is closed exactly once by a close sweep after 3 or more ping sweeps, and never earlier |
| WsServer.TagPublishesExactly | src/services/ws/wsServer.js:47-52 | the raw message is published on `GLOBAL_MESSAGE_SUBSCRIBE(tag)` for each entry whose field equals its tag, and nothing else is published; on each channel it is published exactly as many times as there are matching entries with that channel's tag |
| WsServer.TagPublishesInOrder | src/services/ws/wsServer.js:47 | entries are handled in list order |
| WsServer.TagBroadcastDelivered | src/services/ws/wsServer.js:50 | each tag broadcast, delivered to any node, yields exactly one `'message'` event with the message's `message` field and no socket call |
| WsServer.WebSocketServer.OnSocketMessage | src/services/ws/wsServer.js:44-55 | publishes exactly `TagPublishes` of the tag list, then emits one `'message'` event, whether or not any tag matched |
| WsServer.WebSocketServer.RefreshSocket | src/services/ws/wsServer.js:108-111 | the socket becomes healthy with no unanswered pings, whatever its prior state |
| WsServer.WebSocketServer.SendPings | src/services/ws/wsServer.js:89-102 | the liveness fields and the socket log become `PingAll` and `Pings` of the visit order; the map is unchanged |
| WsServer.WebSocketServer.CloseUnhealthySockets | src/services/ws/wsServer.js:118-131 | appends `Closes` of the visit order to the socket log; liveness fields and map unchanged |
| AmqpRpc.Response | src/services/rpc/amqpRpc.js:54-67 | the reply body is the failure response iff the remote function reported an error, else the success response |
| AmqpRpc.ReplyFor | src/services/rpc/amqpRpc.js:56-66 | a reply carries the request's correlation id |
| AmqpRpc.RepliesFor | src/services/rpc/amqpRpc.js:53-68 | one reply per report of the remote function, in order |
| AmqpRpc.EnqueueAllEffect | src/services/rpc/amqpRpc.js:56-66 | replies are appended to the named reply queue and nowhere else; to a missing queue they are dropped |
| AmqpRpc.DeliveredInOrder | src/services/rpc/amqpRpc.js:112-119 | consuming a queue message by message delivers the same as consuming it at once |
| AmqpRpc.DeliveredExactly | src/services/rpc/amqpRpc.js:114-118 | the callback receives a content iff some reply carries it with the caller's correlation id |
| AmqpRpc.NoMatchNoCallback | src/services/rpc/amqpRpc.js:112-119 | with no matching reply the callback never runs; there is no timeout |
| AmqpRpc.EveryReplyDelivered | src/services/rpc/amqpRpc.js:112-119 | every reply to the request reaches the callback, in order, with no de-duplication |
| AmqpRpc.FleetAnswers | src/services/rpc/amqpRpc.js:48-70 | the caller's callback runs once per report, in order, with the failure body exactly at the failing reports; a report is one invocation of a responder's callback, so N responders reporting once each run the callback N times (`AmqpRpc.FleetRepliesQueued` puts their replies on one queue) |
| AmqpRpc.EnqueueAllConcat | src/services/rpc/amqpRpc.js:56-66 | sending two batches of replies to a queue is the same as sending their concatenation |
| AmqpRpc.RepliesForConcat | src/services/rpc/amqpRpc.js:53-68 | the replies to two runs of reports are the replies to each, one after the other |
| AmqpRpc.FleetRepliesQueued | src/services/rpc/amqpRpc.js:48-71 | responders answering one request one after another (one `Responder.OnRequest` each) leave on the reply queue exactly the replies to all their reports, in the order they answered |
| AmqpRpc.Broker.AssertQueue | src/services/rpc/amqpRpc.js:94-98 | a new, empty reply queue is created |
| AmqpRpc.Broker.Publish | src/services/rpc/amqpRpc.js:105-108 | the request is appended to the exchange |
| AmqpRpc.Broker.SendToQueue | src/services/rpc/amqpRpc.js:56-59 | the reply is appended to the named queue, or dropped if there is none |
| AmqpRpc.Broker.Ack | src/services/rpc/amqpRpc.js:70 | the request is recorded as acknowledged |
| AmqpRpc.Responder.OnRequest | src/services/rpc/amqpRpc.js:48-71 | calls the remote function once with the content, sends one reply per report to `replyTo`, then acks the request exactly once |
| AmqpRpc.Caller.RemoteCall | src/services/rpc/amqpRpc.js:88-108 | creates the reply queue and publishes one request with the fresh correlation id and that queue as `replyTo` |
| AmqpRpc.Caller.OnReply | src/services/rpc/amqpRpc.js:112-119 | hands the content to the callback only when the correlation ids match |
| SocketIdentity.GetSocketKey | src/integration/pulse_integration/server/socketIdController.js:64-70 | onboarded: the trimmed merchant id followed by the trimmed or printed register number, or a TypeError for non-string ids; otherwise the MAC if truthy, else `*NULL*` |
| SocketIdentity.MacIgnoredWhenOnboarded | src/integration/pulse_integration/server/socketIdController.js:65-68 | with merchant id and register number both truthy, the MAC has no effect on the key |
| SocketIdentity.PaddingIgnored | src/integration/pulse_integration/server/socketIdController.js:66-67 | padded and unpadded string ids give the same key |
| SocketIdentity.DigitIdsKey | src/integration/pulse_integration/server/socketIdController.js:67 | ids made of digits are used as given, concatenated |
| SocketIdentity.SharedKeys | src/integration/pulse_integration/server/socketIdController.js:67 | with no separator, merchant `a+b` with register `c` and merchant `a` with register `b+c` get the same key |
| SocketIdentity.Lookup | src/integration/pulse_integration/server/socketIdController.js:90 | a socket is found iff an entry under the key's property name holds a socket rather than `undefined`, and it is that socket |
| SocketIdentity.StoreIfAbsent | src/integration/pulse_integration/server/socketIdController.js:50-52 | a stored socket is kept as it was; otherwise the entry is written, so a lookup then gives the new value; the key is present afterwards and no other entry changes |
| SocketIdentity.GetIdentity | src/integration/pulse_integration/server/socketIdController.js:98-100 | the socket's identity, or the empty identity when it has none |
| SocketIdentity.RemovalKey | src/integration/pulse_integration/server/socketIdController.js:106-109 | the key derived from the socket's identity; `*NULL*` for a socket without one |
| SocketIdentity.Save | src/integration/pulse_integration/server/socketIdController.js:41-55 | a new socket gets its identity (even if deriving the key then throws) and replaces the entry under its key; an identified socket keeps its identity and is stored only if the key is free |
| SocketIdentity.SaveAgainChangesNothing | src/integration/pulse_integration/server/socketIdController.js:50-52 | re-saving a socket's own identity while a socket is stored under its key changes nothing |
| SocketIdentity.IdentityIsSetOnce | src/integration/pulse_integration/server/socketIdController.js:42-43 | once set, a socket's identity survives any number of later saves |
| SocketIdentity.SocketIdController.SaveIdentity | src/integration/pulse_integration/server/socketIdController.js:41-55 | the new identities, registry and outcome are exactly `Save` of the old ones |
| SocketIdentity.SocketIdController.GetSocket | src/integration/pulse_integration/server/socketIdController.js:89-91 | the socket stored under the derived key, if any (`Lookup`); a TypeError if deriving throws |
| SocketIdentity.SocketIdController.RemoveSocket | src/integration/pulse_integration/server/socketIdController.js:106-110 | removes exactly the entry under `RemovalKey`, or throws and changes nothing |
| SocketIdentity.SocketIdController.CloseSocket | src/integration/pulse_integration/server/socketIdController.js:121-128 | returns false iff no socket is stored under the key; never returns true, because the found branch throws |
| AgentWsController.Dispatch | src/integration/pulse_integration/server/agentWsController.js:125-153 | no handler without a truthy name and data; otherwise the name, compared strictly, picks heartbeat, join, restart or tunnel handler |
| AgentWsController.DispatchByNameOnly | src/integration/pulse_integration/server/agentWsController.js:127-136 | only the name and the presence of data decide the handler |
| AgentWsController.UnknownNamesReachNoHandler | src/integration/pulse_integration/server/agentWsController.js:149-151 | a name that is none of the four event names reaches no handler |
| AgentWsController.HourlyRestartReport | src/integration/pulse_integration/server/agentWsController.js:115-117 | the callback is called once, with `Data object ` followed by the data converted to a string |
| AgentWsController.RefusalCloses | src/integration/pulse_integration/server/agentWsController.js:23-28 | a handler makes one socket call, `close`, iff the data is present, the device is unidentifiable and a socket was given; otherwise none |
| AgentWsController.JoinEffect | src/integration/pulse_integration/server/agentWsController.js:83-106 | `null`/`undefined` data throws; an unidentifiable device is refused when a socket is given and throws at `socket.close()` when none is; a key that cannot be derived throws; otherwise the socket (or `undefined`) is stored with identity `{merchantId, registerNo, macAddress}` only if no socket is stored under its key |
| AgentWsController.JoinNeverOverwrites | src/integration/pulse_integration/server/agentWsController.js:98-99 | a join never displaces a stored socket, leaves every other key as it was, and adds at most one key |
| AgentWsController.SocketlessJoinStoresNoSocket | src/integration/pulse_integration/server/agentWsController.js:98-99 | a join delivered without a socket stores `undefined`, so every lookup gives what it gave before |
| AgentWsController.FirstJoinWins | src/integration/pulse_integration/server/agentWsController.js:96-100 | after a join with a socket, a second join under the same key changes nothing, with or without a socket |
| AgentWsController.AgentController.HandleTunnelOpenAction | src/integration/pulse_integration/server/agentWsController.js:22-32 | throws iff the data is `null`/`undefined` (destructuring); otherwise closes the socket iff the device is unidentifiable and a socket is given |
| AgentWsController.AgentController.HandleAgentHeartBeat | src/integration/pulse_integration/server/agentWsController.js:39-61 | throws iff the data is `null`/`undefined` or the device is unidentifiable with no socket to close; otherwise closes the socket iff the device is unidentifiable; never touches the registry |
| AgentWsController.AgentController.HandleJoinTag | src/integration/pulse_integration/server/agentWsController.js:83-106 | the registry, outcome and close calls are those of `JoinEffect` |
| AgentWsController.AgentController.ProcessMessage | src/integration/pulse_integration/server/agentWsController.js:125-153 | with or without a socket: empty, restart and unknown messages throw with no effect; heartbeat and tunnel close only unidentifiable sockets, and a heartbeat throws for one with no socket; join does `JoinEffect` |

## Left out

- JSON text is not modelled. `JSON.parse`, `JSON.stringify` and their exceptions are left out, and payloads are parsed values (`Js.Value`):
  - `SendJson(s, v)` stands for `s.send(JSON.stringify(v))`;
  - a message that is not valid JSON is not modelled;
  - a message that parses to `null` is read as having no fields, although indexing `null` throws.
- Numbers are integers. Booleans and arrays do not appear as field values.
- Js.IntToString: a number converts to its plain decimal notation. This matches JavaScript only for integers of magnitude below 10^21 (JavaScript prints `1e+21` and up in exponent notation) that are exact as doubles (below 2^53). Larger numbers used as keys (`GetSocketKey`'s register number, `TargetKey`'s `data.key`) convert differently in JavaScript.
- Js.JsString: `Absent` stands for both `null` and `undefined` and converts as `"undefined"`. JavaScript converts a `null` field to `"null"`, so a payload such as `{"key": null}` looks up the property `"null"` in JavaScript but `"undefined"` in the model.
- Wrapper.ServerWrapper.GetWebSocketMap: returns the map's contents as a value. JavaScript returns the live `_webSocketMap` object, so a caller's change to it would reach the wrapper. No modelled caller mutates it, so this aliasing is not captured. Object property names come only from `JsString`; inherited (prototype) properties are not modelled.
- The sweeps take the `Object.keys` snapshot as a parameter and are proved for any order of it, which includes the order ECMAScript specifies (integer-like keys ascending, then other keys in insertion order). Properties for a whole map assume its keys hold distinct sockets (`WsServer.Injective`); a socket stored under two keys is pinged once per key, as in the code.
- Timers are not modelled: `setInterval`/`setTimeout` for the sweeps and the 5-minute map-size log. Each sweep is an explicit method call.
- All logging (`console.log`, `console.error`) is left out. `handleSocketDisconnection` only logs, so it has no member.
- The transport's acknowledgement callback is not modelled. Neither is a socket closing itself: the `'close'`, `'terminate'` and `'error'` events just re-emit without the socket.
- Connection setup is left out: AMQP connections and channels, the exchange declaration, queue binding, the reply queue's 5 s expiry, and `uuid()`. The fresh correlation id and the reply queue name are parameters of `AmqpRpc.Caller.RemoteCall`.
- AmqpRpc.Responder.OnRequest: the remote function's callback invocations are a parameter. It covers only invocations made before the function returns (and so before the ack). Invocations made later, after the ack, are not modelled.
- The event-emitter plumbing is not modelled: the setter `webSocketServer` that forwards events, the `pubSub` getter and setter, and the controller's `init(server)` and `getAllSocketKeys`.
- The one-line delegation modules `src/core/pubSub.js`, `src/core/rpc.js` and `src/core/store.js` are not part of this model. Their backends (`RedisPubSub`, `AmqpRpc`, `RedisStore`) are modelled directly.
- SocketIdentity.DeviceServer: the registry interface the two controllers call is modelled by an assumed implementation. Nothing in the repository implements it. The `Server` of `src/index.js` that is actually handed to them forwards `getWebSocket`/`removeWebSocket` to methods `ServerWrapper` lacks and drops the metadata, so as wired `getSocket`, `removeSocket`, the second branch of `saveIdentity` and the lookup in `handleJoinTag` would throw. That wiring is not modelled.
- The composition root `src/index.js`, `agentWsServer.js`, the simulators and the demo drivers are not part of this model.
- Calling a method before the adapter's `init` dereferences a `null` client. That path is excluded by the precondition `Initialized()` / `client.Some?`.
- Concurrency is not modelled: each handler runs to completion, and the model fixes interleavings by the order of method calls.

## Findings

| source | as written | input that shows it | evidently intended | confidence | as-written member | corrected member |
|---|---|---|---|---|---|---|
| src/services/ws/wsServer.js:125 | the close sweep compares `pingCounter` with `_this.HEALTHY_PING_COUNT_THRESHOLD`, a property never set on the instance, so `n > undefined` is false and no socket is ever closed | a socket that never pongs, after any number of ping sweeps: its counter grows without bound and it is never closed | compare with the constant `HEALTHY_PING_COUNT_THRESHOLD` (2) defined in src/utils/constants.js:4, closing a silent socket after 3 ping sweeps | high (by reading; not executed) | WsServer.NeverClosedAsWritten | WsServer.IntendedEviction |
