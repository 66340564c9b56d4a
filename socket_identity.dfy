/**
 * Device identity for agent sockets: the registry key derived from a device's
 * merchant id, register number and MAC address, the identity remembered on each
 * socket, and the registry updates made when a socket identifies itself.
 *
 * The registry is the socket server handed to `init`; it is used through three
 * calls, `getWebSocket(key)`, `storeWebSocket(key, socket, metadata)` and
 * `removeWebSocket(key)`, modelled by `DeviceServer`. Keys are object property names,
 * so a key value is converted to a string by `JsString`.
 */
module SocketIdentity {
  import opened Js
  import opened Transport

  /** The `identity` object set on a socket: the three fields exactly as given. */
  datatype Identity = Identity(merchantId: Value, registerNo: Value, macAddress: Value)

  /** `{}`: destructuring it gives three `undefined` fields. */
  const EMPTY_IDENTITY := Identity(Absent, Absent, Absent)

  /** The key of a device that can be identified neither way. */
  const NULL_KEY: string := "*NULL*"

  /** `(merchantId && registerNo) || macAddress`. */
  predicate Identifiable(merchantId: Value, registerNo: Value, macAddress: Value) {
    (Truthy(merchantId) && Truthy(registerNo)) || Truthy(macAddress)
  }

  /** Does the merchant/register pair decide the key? */
  predicate Onboarded(merchantId: Value, registerNo: Value) {
    Truthy(merchantId) && Truthy(registerNo)
  }

  /**
   * `getSocketKey`. For an onboarded device the key is the trimmed merchant id followed by
   * the register number (trimmed when a string, printed when a number); `.trim()` on a
   * non-string throws. Otherwise the key is the MAC address when truthy, whatever its
   * type, and `'*NULL*'` when not.
   */
  function GetSocketKey(merchantId: Value, registerNo: Value, macAddress: Value): (key: Result<Value>)
    ensures Onboarded(merchantId, registerNo) ==> (key.Ok? <==> merchantId.Str? && !registerNo.Obj?)
    ensures key.Ok? && Onboarded(merchantId, registerNo) ==>
      && key.value.Str?
      && StartsWith(key.value.s, Trim(merchantId.s))
      && key.value.s[|Trim(merchantId.s)|..] == (if registerNo.Num? then IntToString(registerNo.n) else Trim(registerNo.s))
    ensures !Onboarded(merchantId, registerNo) ==> key == Ok(if Truthy(macAddress) then macAddress else Str(NULL_KEY))
    ensures !Identifiable(merchantId, registerNo, macAddress) ==> key == Ok(Str(NULL_KEY))
  {
    if Onboarded(merchantId, registerNo) then
      if registerNo.Obj? || !merchantId.Str? then TypeError
      else
        var register := if registerNo.Num? then IntToString(registerNo.n) else Trim(registerNo.s);
        Ok(Str(Trim(merchantId.s) + register))
    else if Truthy(macAddress) then Ok(macAddress)
    else Ok(Str(NULL_KEY))
  }

  /** For an onboarded device the MAC address has no effect on the key. */
  lemma MacIgnoredWhenOnboarded(merchantId: Value, registerNo: Value, mac1: Value, mac2: Value)
    requires Onboarded(merchantId, registerNo)
    ensures GetSocketKey(merchantId, registerNo, mac1) == GetSocketKey(merchantId, registerNo, mac2)
  {
    if GetSocketKey(merchantId, registerNo, mac1).Ok? {
      var k1, k2 := GetSocketKey(merchantId, registerNo, mac1).value, GetSocketKey(merchantId, registerNo, mac2).value;
      assert k1.s == k1.s[..|Trim(merchantId.s)|] + k1.s[|Trim(merchantId.s)|..];
      assert k2.s == k2.s[..|Trim(merchantId.s)|] + k2.s[|Trim(merchantId.s)|..];
    }
  }

  /**
   * White space around string ids does not change the key: a device reporting padded
   * ids joins under the same key as one reporting them trimmed.
   */
  lemma PaddingIgnored(merchantId: string, registerNo: string, mac1: Value, mac2: Value)
    requires Trim(merchantId) != "" && Trim(registerNo) != ""
    ensures GetSocketKey(Str(merchantId), Str(registerNo), mac1) == GetSocketKey(Str(Trim(merchantId)), Str(Trim(registerNo)), mac2)
  {
    TrimIdempotent(merchantId);
    TrimIdempotent(registerNo);
  }

  predicate AllDigits(s: string) {
    s != [] && forall i :: 0 <= i < |s| ==> IsDigit(s[i])
  }

  /** A string of digits has no white space to trim. */
  lemma DigitsAreTrimmed(s: string)
    requires AllDigits(s)
    ensures Trim(s) == s
  {
    TrimStartKeeps(s);
    TrimEndKeeps(s);
  }

  /** Ids made of digits are used as they are, one after the other. */
  lemma DigitIdsKey(merchantId: string, registerNo: string, macAddress: Value)
    requires AllDigits(merchantId) && AllDigits(registerNo)
    ensures GetSocketKey(Str(merchantId), Str(registerNo), macAddress) == Ok(Str(merchantId + registerNo))
  {
    DigitsAreTrimmed(merchantId);
    DigitsAreTrimmed(registerNo);
  }

  /**
   * The key joins the two ids with no separator, so different onboarded devices can
   * share a key: merchant `a + b` with register `c` and merchant `a` with register
   * `b + c` (`12`/`3` and `1`/`23`, say) get the same key.
   */
  lemma SharedKeys(a: string, b: string, c: string, mac1: Value, mac2: Value)
    requires AllDigits(a) && AllDigits(b) && AllDigits(c)
    ensures GetSocketKey(Str(a + b), Str(c), mac1) == GetSocketKey(Str(a), Str(b + c), mac2)
  {
    DigitsConcat(a, b);
    DigitIdsKey(a + b, c, mac1);
    SplitLater(a, b, c, mac2);
  }

  lemma SplitLater(a: string, b: string, c: string, macAddress: Value)
    requires AllDigits(a) && AllDigits(b) && AllDigits(c)
    ensures GetSocketKey(Str(a), Str(b + c), macAddress) == Ok(Str(a + b + c))
  {
    DigitsConcat(b, c);
    DigitIdsKey(a, b + c, macAddress);
    assert a + (b + c) == a + b + c;
  }

  lemma DigitsConcat(a: string, b: string)
    requires AllDigits(a) && AllDigits(b)
    ensures AllDigits(a + b)
  {
    forall i | 0 <= i < |a + b| ensures IsDigit((a + b)[i]) {
      if i >= |a| {
        assert (a + b)[i] == b[i - |a|];
      }
    }
  }

  /**
   * A registry entry: the value stored (a socket, or `undefined` when the caller passed
   * none) and the metadata passed with it, if any.
   */
  datatype Entry = Entry(socket: Option<SocketId>, metadata: Option<Identity>)

  type Registry = map<string, Entry>

  /**
   * `getWebSocket(key)`: the socket stored under the key's property name; `undefined`
   * when nothing is stored there or `undefined` was stored.
   */
  function Lookup(registry: Registry, key: Value): (found: Option<SocketId>)
    ensures found.Some? <==> JsString(key) in registry && registry[JsString(key)].socket.Some?
    ensures found.Some? ==> registry[JsString(key)].socket == found
  {
    if JsString(key) in registry then registry[JsString(key)].socket else None
  }

  /**
   * `if (!getWebSocket(key)) storeWebSocket(key, socket, metadata)`: a socket object is
   * truthy, so a stored socket is kept; a missing entry, or one holding `undefined`, is
   * replaced.
   */
  function StoreIfAbsent(registry: Registry, key: Value, socket: Option<SocketId>, metadata: Option<Identity>): (r: Registry)
    ensures Lookup(registry, key).Some? ==> r == registry
    ensures Lookup(r, key) == (if Lookup(registry, key).Some? then Lookup(registry, key) else socket)
    ensures r.Keys == registry.Keys + {JsString(key)}
    ensures forall k :: k in registry && k != JsString(key) ==> r[k] == registry[k]
  {
    if Lookup(registry, key).None? then registry[JsString(key) := Entry(socket, metadata)] else registry
  }

  /** The socket server as the identity code sees it. */
  class DeviceServer {
    var entries: Registry

    constructor()
      ensures entries == map[]
    {
      entries := map[];
    }

    method GetWebSocket(key: Value) returns (found: Option<SocketId>)
      ensures found == Lookup(entries, key)
    {
      found := if JsString(key) in entries then entries[JsString(key)].socket else None;
    }

    method StoreWebSocket(key: Value, socket: Option<SocketId>, metadata: Option<Identity>)
      modifies this
      ensures entries == old(entries)[JsString(key) := Entry(socket, metadata)]
    {
      entries := entries[JsString(key) := Entry(socket, metadata)];
    }

    method RemoveWebSocket(key: Value)
      modifies this
      ensures entries == old(entries) - {JsString(key)}
    {
      entries := entries - {JsString(key)};
    }
  }

  /** `getIdentity`: the socket's identity, or `{}` when it has none. */
  function GetIdentity(identities: map<SocketId, Identity>, socket: SocketId): (id: Identity)
    ensures socket in identities ==> id == identities[socket]
    ensures socket !in identities ==> id == EMPTY_IDENTITY
  {
    if socket in identities then identities[socket] else EMPTY_IDENTITY
  }

  /** The key `removeSocket` removes: the one derived from the socket's identity. */
  function RemovalKey(identities: map<SocketId, Identity>, socket: SocketId): (key: Result<Value>)
    ensures socket !in identities ==> key == Ok(Str(NULL_KEY))
    ensures socket in identities ==>
      key == GetSocketKey(identities[socket].merchantId, identities[socket].registerNo, identities[socket].macAddress)
  {
    var id := GetIdentity(identities, socket);
    GetSocketKey(id.merchantId, id.registerNo, id.macAddress)
  }

  /** The identities and registry after `saveIdentity`, and whether it threw. */
  datatype SaveResult = SaveResult(identities: map<SocketId, Identity>, registry: Registry, outcome: Outcome)

  /**
   * `saveIdentity`. A socket without an identity gets the three fields as its identity
   * (before the key is derived, so even when deriving throws) and is stored under the
   * key, replacing any socket there. A socket that has one keeps it, and is stored
   * only when no socket is stored under the key. Only deriving the key can throw.
   */
  function Save(identities: map<SocketId, Identity>, registry: Registry, socket: SocketId,
                merchantId: Value, registerNo: Value, macAddress: Value): (r: SaveResult)
    ensures r.outcome == Threw <==> GetSocketKey(merchantId, registerNo, macAddress).TypeError?
    ensures socket !in identities ==> r.identities == identities[socket := Identity(merchantId, registerNo, macAddress)]
    ensures socket in identities ==> r.identities == identities
    ensures r.outcome == Threw ==> r.registry == registry
    ensures r.outcome == Done && socket !in identities ==>
      var k := JsString(GetSocketKey(merchantId, registerNo, macAddress).value);
      r.registry == registry[k := Entry(Some(socket), None)]
    ensures r.outcome == Done && socket in identities ==>
      var k := JsString(GetSocketKey(merchantId, registerNo, macAddress).value);
      && (Lookup(registry, GetSocketKey(merchantId, registerNo, macAddress).value).Some? ==> r.registry == registry)
      && (Lookup(registry, GetSocketKey(merchantId, registerNo, macAddress).value).None? ==>
            r.registry == registry[k := Entry(Some(socket), None)])
  {
    var key := GetSocketKey(merchantId, registerNo, macAddress);
    if socket !in identities then
      var ids := identities[socket := Identity(merchantId, registerNo, macAddress)];
      if key.TypeError? then SaveResult(ids, registry, Threw)
      else SaveResult(ids, registry[JsString(key.value) := Entry(Some(socket), None)], Done)
    else if key.TypeError? then SaveResult(identities, registry, Threw)
    else SaveResult(identities, StoreIfAbsent(registry, key.value, Some(socket), None), Done)
  }

  /**
   * Saving the identity a socket already has leaves everything unchanged when the
   * socket is stored under its key.
   */
  lemma SaveAgainChangesNothing(identities: map<SocketId, Identity>, registry: Registry, socket: SocketId)
    requires socket in identities
    requires var id := identities[socket];
      var key := GetSocketKey(id.merchantId, id.registerNo, id.macAddress);
      key.Ok? && Lookup(registry, key.value).Some?
    ensures var id := identities[socket];
      Save(identities, registry, socket, id.merchantId, id.registerNo, id.macAddress) == SaveResult(identities, registry, Done)
  {
  }

  /**
   * Once a socket has an identity it keeps it: however many saves follow, with whatever
   * fields, the identity is the one set by the first save.
   */
  lemma {:induction false} IdentityIsSetOnce(identities: map<SocketId, Identity>, registry: Registry, socket: SocketId,
                                             saves: seq<Identity>)
    requires socket in identities
    ensures SaveAll(identities, registry, socket, saves).identities == identities
    decreases |saves|
  {
    if saves != [] {
      var first := saves[0];
      var r := Save(identities, registry, socket, first.merchantId, first.registerNo, first.macAddress);
      IdentityIsSetOnce(r.identities, r.registry, socket, saves[1..]);
    }
  }

  /** Several `saveIdentity` calls for one socket, in order. */
  function SaveAll(identities: map<SocketId, Identity>, registry: Registry, socket: SocketId, saves: seq<Identity>): SaveResult
    decreases |saves|
  {
    if saves == [] then SaveResult(identities, registry, Done)
    else
      var first := saves[0];
      var r := Save(identities, registry, socket, first.merchantId, first.registerNo, first.macAddress);
      SaveAll(r.identities, r.registry, socket, saves[1..])
  }

  /** The identity bookkeeping on top of a device server. */
  class SocketIdController {
    const server: DeviceServer
    /** The `identity` property of each socket that has one. */
    var identities: map<SocketId, Identity>

    /** The controller after `init(server)`. */
    constructor(server: DeviceServer)
      ensures this.server == server && identities == map[]
    {
      this.server := server;
      identities := map[];
    }

    method SaveIdentity(socket: SocketId, merchantId: Value, registerNo: Value, macAddress: Value) returns (outcome: Outcome)
      modifies this`identities, server
      ensures SaveResult(identities, server.entries, outcome)
              == Save(old(identities), old(server.entries), socket, merchantId, registerNo, macAddress)
    {
      if socket !in identities {
        identities := identities[socket := Identity(merchantId, registerNo, macAddress)];
        var key := GetSocketKey(merchantId, registerNo, macAddress);
        if key.TypeError? {
          return Threw;
        }
        server.StoreWebSocket(key.value, Some(socket), None);
      } else {
        var key := GetSocketKey(merchantId, registerNo, macAddress);
        if key.TypeError? {
          return Threw;
        }
        var existing := server.GetWebSocket(key.value);
        if existing.None? {
          server.StoreWebSocket(key.value, Some(socket), None);
        }
      }
      outcome := Done;
    }

    /** `getSocket`: the socket stored under the derived key, if any. */
    method GetSocket(merchantId: Value, registerNo: Value, macAddress: Value) returns (found: Result<Option<SocketId>>)
      ensures GetSocketKey(merchantId, registerNo, macAddress).TypeError? ==> found.TypeError?
      ensures GetSocketKey(merchantId, registerNo, macAddress).Ok? ==>
        found.Ok? && (found.value.Some? <==> Lookup(server.entries, GetSocketKey(merchantId, registerNo, macAddress).value).Some?)
      ensures found.Ok? && found.value.Some? ==>
        server.entries[JsString(GetSocketKey(merchantId, registerNo, macAddress).value)].socket == found.value
    {
      var key := GetSocketKey(merchantId, registerNo, macAddress);
      if key.TypeError? {
        return TypeError;
      }
      var socket := server.GetWebSocket(key.value);
      found := Ok(socket);
    }

    /** `removeSocket`: removes the entry under the key derived from the socket's identity. */
    method RemoveSocket(socket: SocketId) returns (outcome: Outcome)
      modifies server
      ensures outcome == Threw <==> RemovalKey(identities, socket).TypeError?
      ensures outcome == Done ==> server.entries == old(server.entries) - {JsString(RemovalKey(identities, socket).value)}
      ensures outcome == Threw ==> server.entries == old(server.entries)
    {
      var id := GetIdentity(identities, socket);
      var key := GetSocketKey(id.merchantId, id.registerNo, id.macAddress);
      if key.TypeError? {
        return Threw;
      }
      server.RemoveWebSocket(key.value);
      outcome := Done;
    }

    /**
     * `closeSocket`. With no socket under the derived key it returns false. With one, it
     * calls `this.server` as a function, which is an object, so it throws before returning
     * true: the call never reports success.
     */
    method CloseSocket(merchantId: Value, registerNo: Value, macAddress: Value) returns (closed: Result<bool>)
      ensures closed != Ok(true)
      ensures closed == Ok(false) <==>
        var key := GetSocketKey(merchantId, registerNo, macAddress);
        key.Ok? && Lookup(server.entries, key.value).None?
    {
      var socket := GetSocket(merchantId, registerNo, macAddress);
      if socket.TypeError? {
        return TypeError;
      }
      if socket.value.Some? {
        return TypeError;
      }
      closed := Ok(false);
    }
  }
}
