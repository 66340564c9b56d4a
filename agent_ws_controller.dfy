/**
 * The agent socket controller: routes each parsed agent message to a handler by its
 * `name`, and the handlers for heartbeats, joins, tunnel openings and hourly restarts.
 *
 * A handler "throws" where the code dereferences something undefined: the controller
 * has no `logger` and no `logError`, so an empty message, an unknown name and a
 * restart report all end in a TypeError.
 */
module AgentWsController {
  import opened Js
  import opened Transport
  import opened SocketIdentity

  // Data field names.
  const MERCHANT_ID: string := "MERCHANT_ID"
  const REGISTER_NO: string := "REGISTER_NO"
  const MAC: string := "MAC"
  const TUNNEL_PORT: string := "TUNNEL_PORT"

  // Event names.
  const AGENT_HEARTBEAT_TAG: string := "HEART_BEAT"
  const AGENT_HOURLY_RESTARTS_TAG: string := "RESTART_UPDATE"
  const JOIN_TAG: string := "JOIN"
  const TUNNEL_OPEN_SUCCESS: string := "TUNNEL_OPEN_SUCCESS"

  /** The device fields of a message's data: `undefined` where missing or when the data is no object. */
  function IdentityOf(data: Value): Identity {
    Identity(Field(data, MERCHANT_ID), Field(data, REGISTER_NO), Field(data, MAC))
  }

  predicate DeviceIdentifiable(data: Value) {
    var id := IdentityOf(data);
    Identifiable(id.merchantId, id.registerNo, id.macAddress)
  }

  /** Where `processMessage` sends a message. */
  datatype Handler = Empty | HeartBeat | Join | HourlyRestart | TunnelOpen | Unknown

  /**
   * `processMessage`'s guard and `switch`: a message without a truthy `name` or `data`
   * reaches no handler, and otherwise the name, compared strictly with each event name,
   * picks one.
   */
  function Dispatch(payload: Value): (h: Handler)
    ensures h == Empty <==> !Truthy(Field(payload, "name")) || !Truthy(Field(payload, "data"))
    ensures h == HeartBeat <==> h != Empty && Field(payload, "name") == Str(AGENT_HEARTBEAT_TAG)
    ensures h == Join <==> h != Empty && Field(payload, "name") == Str(JOIN_TAG)
    ensures h == HourlyRestart <==> h != Empty && Field(payload, "name") == Str(AGENT_HOURLY_RESTARTS_TAG)
    ensures h == TunnelOpen <==> h != Empty && Field(payload, "name") == Str(TUNNEL_OPEN_SUCCESS)
  {
    var event, data := Field(payload, "name"), Field(payload, "data");
    if !Truthy(event) || !Truthy(data) then Empty
    else if event == Str(AGENT_HEARTBEAT_TAG) then HeartBeat
    else if event == Str(JOIN_TAG) then Join
    else if event == Str(AGENT_HOURLY_RESTARTS_TAG) then HourlyRestart
    else if event == Str(TUNNEL_OPEN_SUCCESS) then TunnelOpen
    else Unknown
  }

  /** Only the name, and whether name and data are present, decide the handler. */
  lemma DispatchByNameOnly(p1: Value, p2: Value)
    requires Field(p1, "name") == Field(p2, "name")
    requires Truthy(Field(p1, "data")) == Truthy(Field(p2, "data"))
    ensures Dispatch(p1) == Dispatch(p2)
  {
  }

  /** A name that is none of the four event names reaches no handler. */
  lemma UnknownNamesReachNoHandler(payload: Value)
    requires Truthy(Field(payload, "name")) && Truthy(Field(payload, "data"))
    requires Field(payload, "name") !in {Str(AGENT_HEARTBEAT_TAG), Str(JOIN_TAG), Str(AGENT_HOURLY_RESTARTS_TAG), Str(TUNNEL_OPEN_SUCCESS)}
    ensures Dispatch(payload) == Unknown
  {
  }

  /** What `handleHourlyRestartMessage` passes to its callback, once. */
  function HourlyRestartReport(dataObj: Value): (calls: seq<string>)
    ensures |calls| == 1
    ensures StartsWith(calls[0], "Data object ") && calls[0][|"Data object "|..] == JsString(dataObj)
  {
    ["Data object " + JsString(dataObj)]
  }

  /**
   * The one socket call a handler makes for a device it cannot identify: it closes the
   * socket, when there is data to read and a socket to close.
   */
  function RefusalCloses(socket: Option<SocketId>, data: Value): (calls: seq<SocketAction>)
    ensures |calls| <= 1
    ensures calls != [] <==> data != Absent && !DeviceIdentifiable(data) && socket.Some?
    ensures calls != [] ==> calls[0] == SocketAction.Close(socket.value)
  {
    if data != Absent && !DeviceIdentifiable(data) && socket.Some? then [SocketAction.Close(socket.value)] else []
  }

  /** What a JOIN does to the registry. */
  datatype JoinResult =
    | Refused          // unidentifiable: the socket is closed
    | Failed           // a TypeError: no data, no socket to close, or deriving the key threw
    | Joined(registry: Registry)

  /**
   * `handleJoinTag`. Reading a field of `null` or `undefined` data throws. An
   * unidentifiable device's socket is closed, which throws when no socket was given.
   * Otherwise the socket, or `undefined` when none was given, is stored under the device
   * key with the JOIN data's three fields as its identity, unless a socket is already
   * stored there, which is then kept as it was.
   */
  function JoinEffect(registry: Registry, socket: Option<SocketId>, data: Value): (r: JoinResult)
    ensures r == Refused <==> data != Absent && !DeviceIdentifiable(data) && socket.Some?
    ensures r == Failed <==>
      || data == Absent
      || (!DeviceIdentifiable(data) && socket.None?)
      || (DeviceIdentifiable(data) && GetSocketKey(IdentityOf(data).merchantId, IdentityOf(data).registerNo, IdentityOf(data).macAddress).TypeError?)
    ensures r.Joined? ==>
      var id := IdentityOf(data);
      var key := GetSocketKey(id.merchantId, id.registerNo, id.macAddress).value;
      && (Lookup(registry, key).Some? ==> r.registry == registry)
      && (Lookup(registry, key).None? ==> r.registry == registry[JsString(key) := Entry(socket, Some(id))])
  {
    if data == Absent then Failed
    else
      var id := IdentityOf(data);
      if !Identifiable(id.merchantId, id.registerNo, id.macAddress) then
        if socket.Some? then Refused else Failed
      else
        var key := GetSocketKey(id.merchantId, id.registerNo, id.macAddress);
        if key.TypeError? then Failed
        else Joined(StoreIfAbsent(registry, key.value, socket, Some(id)))
  }

  /**
   * A JOIN never displaces a socket already stored under any key, its own included,
   * leaves every other key as it was, and adds at most one key.
   */
  lemma JoinNeverOverwrites(registry: Registry, socket: Option<SocketId>, data: Value)
    requires JoinEffect(registry, socket, data).Joined?
    ensures var r := JoinEffect(registry, socket, data).registry;
      forall k :: k in registry && registry[k].socket.Some? ==> k in r && r[k] == registry[k]
    ensures var r := JoinEffect(registry, socket, data).registry;
      var id := IdentityOf(data);
      var key := JsString(GetSocketKey(id.merchantId, id.registerNo, id.macAddress).value);
      forall k :: k in registry && k != key ==> k in r && r[k] == registry[k]
    ensures |JoinEffect(registry, socket, data).registry.Keys - registry.Keys| <= 1
  {
    var id := IdentityOf(data);
    var k := JsString(GetSocketKey(id.merchantId, id.registerNo, id.macAddress).value);
    var r := JoinEffect(registry, socket, data).registry;
    assert r.Keys - registry.Keys <= {k};
  }

  /**
   * A JOIN delivered without a socket stores `undefined`, so it makes no socket findable
   * that was not before: every lookup gives what it gave before the JOIN.
   */
  lemma SocketlessJoinStoresNoSocket(registry: Registry, data: Value, key: Value)
    requires JoinEffect(registry, None, data).Joined?
    ensures Lookup(JoinEffect(registry, None, data).registry, key) == Lookup(registry, key)
  {
  }

  /**
   * Two JOINs of identifiable devices with the same key, the first with a socket: after
   * the first a socket is stored under the key (its own, or one stored before), so the
   * second changes nothing, whether or not it carries a socket.
   */
  lemma FirstJoinWins(registry: Registry, s1: SocketId, s2: Option<SocketId>, data1: Value, data2: Value)
    requires JoinEffect(registry, Some(s1), data1).Joined? && DeviceIdentifiable(data2)
    requires var id1, id2 := IdentityOf(data1), IdentityOf(data2);
      GetSocketKey(id2.merchantId, id2.registerNo, id2.macAddress) == GetSocketKey(id1.merchantId, id1.registerNo, id1.macAddress)
    ensures var r1 := JoinEffect(registry, Some(s1), data1).registry;
      JoinEffect(r1, s2, data2) == Joined(r1)
  {
    var id1, id2 := IdentityOf(data1), IdentityOf(data2);
    var key := GetSocketKey(id1.merchantId, id1.registerNo, id1.macAddress);
    var r1 := JoinEffect(registry, Some(s1), data1).registry;
    assert r1 == StoreIfAbsent(registry, key.value, Some(s1), Some(id1));
    assert Lookup(r1, key.value).Some?;
    assert data2 != Absent && Identifiable(id2.merchantId, id2.registerNo, id2.macAddress);
    assert GetSocketKey(id2.merchantId, id2.registerNo, id2.macAddress) == key;
    assert StoreIfAbsent(r1, key.value, s2, Some(id2)) == r1;
  }

  class AgentController {
    /** The sockets' `close` calls. */
    const transport: SocketLog

    constructor(transport: SocketLog)
      ensures this.transport == transport
    {
      this.transport := transport;
    }

    /**
     * `handleTunnelOpenAction`: destructuring `null` or `undefined` data throws; an
     * unidentifiable device's socket is closed when one is given; nothing else happens.
     */
    method HandleTunnelOpenAction(socket: Option<SocketId>, data: Value) returns (outcome: Outcome)
      modifies transport
      ensures outcome == Threw <==> data == Absent
      ensures transport.actions == old(transport.actions) + RefusalCloses(socket, data)
    {
      if data == Absent {
        return Threw;
      }
      var id := IdentityOf(data);
      if !(Truthy(id.merchantId) && Truthy(id.registerNo)) && !Truthy(id.macAddress) {
        if socket.Some? {
          transport.Close(socket.value);
        }
        return Done;
      }
      outcome := Done;
    }

    /**
     * `handleAgentHeartBeat`: reading a field of `null` or `undefined` data throws; an
     * unidentifiable device's socket is closed, which throws when no socket was given;
     * an identifiable one is only logged. The registry is not touched.
     */
    method HandleAgentHeartBeat(socket: Option<SocketId>, data: Value) returns (outcome: Outcome)
      modifies transport
      ensures outcome == Threw <==> data == Absent || (!DeviceIdentifiable(data) && socket.None?)
      ensures transport.actions == old(transport.actions) + RefusalCloses(socket, data)
    {
      if data == Absent {
        return Threw;
      }
      var id := IdentityOf(data);
      if !(Truthy(id.merchantId) && Truthy(id.registerNo)) && !Truthy(id.macAddress) {
        if socket.None? {
          return Threw;
        }
        transport.Close(socket.value);
        return Done;
      }
      outcome := Done;
    }

    /** `handleJoinTag`, against the registry of `server`. */
    method HandleJoinTag(server: DeviceServer, socket: Option<SocketId>, data: Value) returns (outcome: Outcome)
      modifies server, transport
      ensures outcome == Threw <==> JoinEffect(old(server.entries), socket, data) == Failed
      ensures server.entries == match JoinEffect(old(server.entries), socket, data)
        case Joined(r) => r
        case _ => old(server.entries)
      ensures transport.actions == old(transport.actions) + RefusalCloses(socket, data)
    {
      if data == Absent {
        return Threw;
      }
      var id := IdentityOf(data);
      if !(Truthy(id.merchantId) && Truthy(id.registerNo)) && !Truthy(id.macAddress) {
        if socket.None? {
          return Threw;
        }
        transport.Close(socket.value);
        return Done;
      }
      var key := GetSocketKey(id.merchantId, id.registerNo, id.macAddress);
      if key.TypeError? {
        return Threw;
      }
      var existing := server.GetWebSocket(key.value);
      if existing.None? {
        server.StoreWebSocket(key.value, socket, Some(id));
      }
      outcome := Done;
    }

    /**
     * `processMessage` on a parsed payload, with the socket it arrived on, or none for a
     * message relayed from a global tag channel. An empty message, a restart report
     * (whose callback is bound from the missing `logError`) and an unknown name throw
     * before any handler acts; the other three names run their handler on the message's
     * `data`, which the guard has made truthy.
     */
    method ProcessMessage(server: DeviceServer, socket: Option<SocketId>, payload: Value) returns (outcome: Outcome)
      modifies server, transport
      ensures Dispatch(payload) in {Empty, HourlyRestart, Unknown} ==>
        outcome == Threw && server.entries == old(server.entries) && transport.actions == old(transport.actions)
      ensures Dispatch(payload) == HeartBeat ==>
        && (outcome == Threw <==> !DeviceIdentifiable(Field(payload, "data")) && socket.None?)
        && server.entries == old(server.entries)
        && transport.actions == old(transport.actions) + RefusalCloses(socket, Field(payload, "data"))
      ensures Dispatch(payload) == TunnelOpen ==>
        && outcome == Done && server.entries == old(server.entries)
        && transport.actions == old(transport.actions) + RefusalCloses(socket, Field(payload, "data"))
      ensures Dispatch(payload) == Join ==>
        var r := JoinEffect(old(server.entries), socket, Field(payload, "data"));
        && (outcome == Threw <==> r == Failed)
        && server.entries == (if r.Joined? then r.registry else old(server.entries))
        && transport.actions == old(transport.actions) + RefusalCloses(socket, Field(payload, "data"))
    {
      var event, data := Field(payload, "name"), Field(payload, "data");
      if !Truthy(event) || !Truthy(data) {
        return Threw;
      }
      if event == Str(AGENT_HEARTBEAT_TAG) {
        outcome := HandleAgentHeartBeat(socket, data);
      } else if event == Str(JOIN_TAG) {
        outcome := HandleJoinTag(server, socket, data);
      } else if event == Str(AGENT_HOURLY_RESTARTS_TAG) {
        outcome := Threw;
      } else if event == Str(TUNNEL_OPEN_SUCCESS) {
        outcome := HandleTunnelOpenAction(socket, data);
      } else {
        outcome := Threw;
      }
    }
  }
}
