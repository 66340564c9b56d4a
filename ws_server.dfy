/**
 * The ws-based socket server of one node: the tag broadcast done for every incoming
 * client message, and the two-phase heartbeat (a ping sweep, then a close sweep) over
 * the node's socket map. The map and the tag list are the ones the server wrapper owns;
 * this server reads them through its wrapper and never changes them.
 *
 * The `healthy` and `pingCounter` properties the code sets on each socket object are
 * kept here in `health`, keyed by socket; a socket that was never pinged nor ponged has
 * no entry, which stands for both properties being unset.
 */
module WsServer {
  import opened Js
  import opened Constants
  import opened Transport
  import opened RedisPubSub
  import opened Wrapper

  datatype Health = Health(healthy: bool, pingCounter: int)

  type HealthMap = map<SocketId, Health>

  /** A message received from a client, emitted as `'message'` together with its socket. */
  datatype Incoming = Incoming(message: Value, socket: SocketId)

  /** `webSocket.pingCounter || 0`. */
  function CounterOf(h: HealthMap, s: SocketId): int {
    if s in h then h[s].pingCounter else 0
  }

  /** One step of `_sendPings`: mark unhealthy and count one more unanswered ping. */
  function PingOne(h: HealthMap, s: SocketId): HealthMap {
    h[s := Health(false, CounterOf(h, s) + 1)]
  }

  /** `PingOne` applied to `ids` from first to last. */
  function PingAll(h: HealthMap, ids: seq<SocketId>): HealthMap {
    if ids == [] then h else PingOne(PingAll(h, ids[..|ids| - 1]), ids[|ids| - 1])
  }

  function Pings(ids: seq<SocketId>): seq<SocketAction> {
    if ids == [] then [] else Pings(ids[..|ids| - 1]) + [Ping(ids[|ids| - 1])]
  }

  /** `_refreshSocket`, run on every pong: healthy again, no unanswered pings. */
  function Refresh(h: HealthMap, s: SocketId): HealthMap {
    h[s := Health(true, 0)]
  }

  /** `!webSocket.healthy`: an unset flag is falsy, so a never-pinged socket counts as unhealthy. */
  predicate Unhealthy(h: HealthMap, s: SocketId) {
    !(s in h && h[s].healthy)
  }

  /**
   * `webSocket.pingCounter > threshold`. JavaScript's `>` is false when either side is
   * `undefined`: an unset counter (`s !in h`) or an unset threshold (`None`).
   */
  predicate OverThreshold(h: HealthMap, s: SocketId, threshold: Option<int>) {
    s in h && threshold.Some? && h[s].pingCounter > threshold.value
  }

  predicate ShouldClose(h: HealthMap, s: SocketId, threshold: Option<int>) {
    Unhealthy(h, s) && OverThreshold(h, s, threshold)
  }

  /** The `close` calls of `_closeUnhealthySockets` visiting `ids` from first to last. */
  function Closes(h: HealthMap, ids: seq<SocketId>, threshold: Option<int>): seq<SocketAction> {
    if ids == [] then []
    else
      var s := ids[|ids| - 1];
      Closes(h, ids[..|ids| - 1], threshold) + (if ShouldClose(h, s, threshold) then [SocketAction.Close(s)] else [])
  }

  /** `Object.keys(map)`: every key of the map, each exactly once, in some order. */
  predicate IsSnapshot(snapshot: seq<string>, sockets: map<string, SocketId>) {
    && (forall k :: k in snapshot ==> k in sockets)
    && (forall k :: k in sockets ==> k in snapshot)
    && (forall i, j :: 0 <= i < j < |snapshot| ==> snapshot[i] != snapshot[j])
  }

  /** The sockets a sweep visits: those under the snapshot's keys, from the last key to the first. */
  function VisitOrder(sockets: map<string, SocketId>, snapshot: seq<string>): seq<SocketId>
    requires forall k :: k in snapshot ==> k in sockets
  {
    if snapshot == [] then [] else VisitOrder(sockets, snapshot[1..]) + [sockets[snapshot[0]]]
  }

  /** Both sweeps walk the key snapshot backwards: the `j`-th visit is the socket of the `j`-th key from the end. */
  lemma {:induction false} VisitOrderReverses(sockets: map<string, SocketId>, snapshot: seq<string>)
    requires forall k :: k in snapshot ==> k in sockets
    ensures |VisitOrder(sockets, snapshot)| == |snapshot|
    ensures forall j :: 0 <= j < |snapshot| ==> VisitOrder(sockets, snapshot)[j] == sockets[snapshot[|snapshot| - 1 - j]]
  {
    if snapshot != [] {
      VisitOrderReverses(sockets, snapshot[1..]);
    }
  }

  /** No two keys share a socket. */
  predicate Injective(sockets: map<string, SocketId>) {
    forall k1, k2 :: k1 in sockets && k2 in sockets && k1 != k2 ==> sockets[k1] != sockets[k2]
  }

  /**
   * With a duplicate-free snapshot of a map whose keys hold distinct sockets, a sweep visits
   * every socket of the map exactly once and no other socket.
   */
  lemma {:induction false} VisitedOnce(sockets: map<string, SocketId>, snapshot: seq<string>, s: SocketId)
    requires forall k :: k in snapshot ==> k in sockets
    requires forall i, j :: 0 <= i < j < |snapshot| ==> snapshot[i] != snapshot[j]
    requires Injective(sockets)
    ensures multiset(VisitOrder(sockets, snapshot))[s] == if exists k :: k in snapshot && sockets[k] == s then 1 else 0
  {
    if snapshot != [] {
      var rest := snapshot[1..];
      VisitedOnce(sockets, rest, s);
      if sockets[snapshot[0]] == s {
        forall k | k in rest ensures sockets[k] != s {
          var i :| 0 <= i < |rest| && rest[i] == k;
          assert snapshot[i + 1] == k;
        }
      } else {
        if exists k :: k in snapshot && sockets[k] == s {
          var k :| k in snapshot && sockets[k] == s;
          assert k in rest;
        }
      }
    }
  }

  /** The ping sweep's actions: one ping per visit, in visiting order. */
  lemma {:induction false} PingsInOrder(ids: seq<SocketId>)
    ensures |Pings(ids)| == |ids|
    ensures forall j :: 0 <= j < |ids| ==> Pings(ids)[j] == Ping(ids[j])
  {
    if ids != [] {
      PingsInOrder(ids[..|ids| - 1]);
    }
  }

  /**
   * The ping sweep's effect on the liveness fields: every visited socket ends unhealthy with
   * its counter (an unset one read as 0) raised by the number of times it was visited;
   * sockets not visited keep their fields, and no socket loses its fields.
   */
  lemma {:induction false} PingAllEffect(h: HealthMap, ids: seq<SocketId>)
    ensures forall s :: CounterOf(PingAll(h, ids), s) == CounterOf(h, s) + multiset(ids)[s]
    ensures forall s :: s in ids ==> s in PingAll(h, ids) && !PingAll(h, ids)[s].healthy
    ensures forall s :: s !in ids ==> (s in PingAll(h, ids) <==> s in h)
    ensures forall s :: s !in ids && s in h ==> PingAll(h, ids)[s] == h[s]
  {
    if ids != [] {
      var init, last := ids[..|ids| - 1], ids[|ids| - 1];
      assert ids == init + [last];
      PingAllEffect(h, init);
      forall s | s in ids && s != last ensures s in init {
      }
    }
  }

  /**
   * The close sweep only closes, and closes each visited socket that is unhealthy and over
   * the threshold once per visit, and nothing else.
   */
  lemma {:induction false} ClosesExactly(h: HealthMap, ids: seq<SocketId>, threshold: Option<int>)
    ensures forall a :: a in Closes(h, ids, threshold) ==> a.Close?
    ensures forall s :: multiset(Closes(h, ids, threshold))[SocketAction.Close(s)]
                        == if ShouldClose(h, s, threshold) then multiset(ids)[s] else 0
  {
    if ids != [] {
      var init, last := ids[..|ids| - 1], ids[|ids| - 1];
      assert ids == init + [last];
      ClosesExactly(h, init, threshold);
    }
  }

  /** One ping per visit: a socket is pinged as often as it is visited. */
  lemma {:induction false} PingsCount(ids: seq<SocketId>, s: SocketId)
    ensures multiset(Pings(ids))[Ping(s)] == multiset(ids)[s]
  {
    if ids != [] {
      var init := ids[..|ids| - 1];
      assert ids == init + [ids[|ids| - 1]];
      PingsCount(init, s);
    }
  }

  /**
   * A ping sweep over a snapshot of a map whose keys hold distinct sockets: every socket
   * of the map is pinged exactly once and ends unhealthy with one more unanswered ping;
   * every other socket keeps its fields.
   */
  lemma PingSweepCoversMap(h: HealthMap, sockets: map<string, SocketId>, snapshot: seq<string>)
    requires IsSnapshot(snapshot, sockets) && Injective(sockets)
    ensures forall k :: k in sockets ==>
      var after := PingAll(h, VisitOrder(sockets, snapshot));
      && sockets[k] in after && !after[sockets[k]].healthy
      && CounterOf(after, sockets[k]) == CounterOf(h, sockets[k]) + 1
      && multiset(Pings(VisitOrder(sockets, snapshot)))[Ping(sockets[k])] == 1
    ensures forall s :: s !in sockets.Values ==>
      var after := PingAll(h, VisitOrder(sockets, snapshot));
      && (s in after <==> s in h) && (s in h ==> after[s] == h[s])
      && Ping(s) !in Pings(VisitOrder(sockets, snapshot))
  {
    var ids := VisitOrder(sockets, snapshot);
    PingAllEffect(h, ids);
    forall k | k in sockets
      ensures multiset(ids)[sockets[k]] == 1
      ensures multiset(Pings(ids))[Ping(sockets[k])] == 1
    {
      VisitedOnce(sockets, snapshot, sockets[k]);
      PingsCount(ids, sockets[k]);
    }
    forall s | s !in sockets.Values
      ensures s !in ids && Ping(s) !in Pings(ids)
    {
      VisitedOnce(sockets, snapshot, s);
      PingsCount(ids, s);
    }
  }

  /**
   * A close sweep over a snapshot of a map whose keys hold distinct sockets closes each
   * socket of the map once if it is unhealthy and over the threshold, and otherwise not
   * at all; it closes no socket outside the map.
   */
  lemma CloseSweepCoversMap(h: HealthMap, sockets: map<string, SocketId>, snapshot: seq<string>, threshold: Option<int>)
    requires IsSnapshot(snapshot, sockets) && Injective(sockets)
    ensures forall k :: k in sockets ==>
      multiset(Closes(h, VisitOrder(sockets, snapshot), threshold))[SocketAction.Close(sockets[k])]
      == if ShouldClose(h, sockets[k], threshold) then 1 else 0
    ensures forall s :: s !in sockets.Values ==> SocketAction.Close(s) !in Closes(h, VisitOrder(sockets, snapshot), threshold)
  {
    var ids := VisitOrder(sockets, snapshot);
    ClosesExactly(h, ids, threshold);
    forall k | k in sockets
      ensures multiset(ids)[sockets[k]] == 1
    {
      VisitedOnce(sockets, snapshot, sockets[k]);
    }
    forall s | s !in sockets.Values
      ensures multiset(ids)[s] == 0
    {
      VisitedOnce(sockets, snapshot, s);
    }
  }

  /** A socket that pongs after the ping sweep is not closed by the close sweep that follows. */
  lemma PongPreventsClose(h: HealthMap, ids: seq<SocketId>, s: SocketId, threshold: Option<int>)
    ensures SocketAction.Close(s) !in Closes(Refresh(PingAll(h, ids), s), ids, threshold)
  {
    ClosesExactly(Refresh(PingAll(h, ids), s), ids, threshold);
  }

  /** `n` ping sweeps over the same visit order with no pong in between. */
  function PingRounds(h: HealthMap, ids: seq<SocketId>, n: nat): HealthMap {
    if n == 0 then h else PingAll(PingRounds(h, ids, n - 1), ids)
  }

  /**
   * A socket that never pongs, visited once per sweep and starting with no unanswered
   * pings, has exactly `n` after `n` sweeps; with a threshold `t` the close sweep first
   * selects it after `t + 1` ping sweeps.
   */
  lemma {:induction false} SilentSocketCounts(h: HealthMap, ids: seq<SocketId>, s: SocketId, n: nat, t: nat)
    requires multiset(ids)[s] == 1 && CounterOf(h, s) == 0
    ensures CounterOf(PingRounds(h, ids, n), s) == n
    ensures n > 0 ==> s in PingRounds(h, ids, n) && !PingRounds(h, ids, n)[s].healthy
    ensures ShouldClose(PingRounds(h, ids, n), s, Some(t)) <==> n > t
  {
    if n > 0 {
      SilentSocketCounts(h, ids, s, n - 1, t);
      PingAllEffect(PingRounds(h, ids, n - 1), ids);
      assert s in ids;
    }
  }

  /**
   * As written, `_closeUnhealthySockets` compares with an unset instance field: the
   * comparison is always false and the sweep closes nothing, however long a socket is silent.
   */
  lemma {:induction false} NeverClosedAsWritten(h: HealthMap, ids: seq<SocketId>)
    ensures Closes(h, ids, None) == []
  {
    if ids != [] {
      NeverClosedAsWritten(h, ids[..|ids| - 1]);
    }
  }

  /**
   * With the intended threshold `HEALTHY_PING_COUNT_THRESHOLD` (2), a silent socket visited
   * once per sweep is closed exactly once by a close sweep after 3 or more ping sweeps,
   * and never before.
   */
  lemma IntendedEviction(h: HealthMap, ids: seq<SocketId>, s: SocketId, n: nat)
    requires multiset(ids)[s] == 1 && CounterOf(h, s) == 0
    ensures multiset(Closes(PingRounds(h, ids, n), ids, Some(HEALTHY_PING_COUNT_THRESHOLD)))[SocketAction.Close(s)]
            == if n >= HEALTHY_PING_COUNT_THRESHOLD + 1 then 1 else 0
  {
    SilentSocketCounts(h, ids, s, n, HEALTHY_PING_COUNT_THRESHOLD);
    ClosesExactly(PingRounds(h, ids, n), ids, Some(HEALTHY_PING_COUNT_THRESHOLD));
  }

  /** Does the message's field `tagFieldKey` hold the entry's tag? */
  predicate Matches(entry: TagSubscription, message: Value) {
    Field(message, entry.tagFieldKey) == Str(entry.tag)
  }

  /** The publications made for one tag entry. */
  function TagPublish(entry: TagSubscription, message: Value): seq<Message> {
    if Matches(entry, message) then [Message(GlobalMessageSubscribe(entry.tag), message)] else []
  }

  /** The publications the message handler makes, entry by entry in list order. */
  function TagPublishes(tags: seq<TagSubscription>, message: Value): seq<Message> {
    if tags == [] then [] else TagPublishes(tags[..|tags| - 1], message) + TagPublish(tags[|tags| - 1], message)
  }

  /** The positions of the entries whose tag matches the message and whose channel is `channel`. */
  function MatchingEntries(tags: seq<TagSubscription>, message: Value, channel: string): set<nat> {
    set j: nat | j < |tags| && Matches(tags[j], message) && GlobalMessageSubscribe(tags[j].tag) == channel
  }

  /**
   * The handler publishes the raw message on `GLOBAL_MESSAGE_SUBSCRIBE(tag)` for each
   * matching entry, and publishes nothing else: on each channel, as many times as there
   * are matching entries with that channel's tag.
   */
  lemma {:induction false} TagPublishesExactly(tags: seq<TagSubscription>, message: Value)
    ensures |TagPublishes(tags, message)| <= |tags|
    ensures forall m :: m in TagPublishes(tags, message) <==>
      m.payload == message && exists j :: 0 <= j < |tags| && Matches(tags[j], message) && m.channel == GlobalMessageSubscribe(tags[j].tag)
    ensures forall channel ::
      multiset(TagPublishes(tags, message))[Message(channel, message)] == |MatchingEntries(tags, message, channel)|
  {
    PublishedChannels(tags, message);
    forall channel
      ensures multiset(TagPublishes(tags, message))[Message(channel, message)] == |MatchingEntries(tags, message, channel)|
    {
      PublicationsPerChannel(tags, message, channel);
    }
  }

  /** What is published at all: the message, on the channel of each matching entry. */
  lemma {:induction false} PublishedChannels(tags: seq<TagSubscription>, message: Value)
    ensures |TagPublishes(tags, message)| <= |tags|
    ensures forall m :: m in TagPublishes(tags, message) <==>
      m.payload == message && exists j :: 0 <= j < |tags| && Matches(tags[j], message) && m.channel == GlobalMessageSubscribe(tags[j].tag)
  {
    if tags != [] {
      var init := tags[..|tags| - 1];
      PublishedChannels(init, message);
      forall m | m in TagPublishes(tags, message)
        ensures m.payload == message && exists j :: 0 <= j < |tags| && Matches(tags[j], message) && m.channel == GlobalMessageSubscribe(tags[j].tag)
      {
        if m in TagPublishes(init, message) {
          var j :| 0 <= j < |init| && Matches(init[j], message) && m.channel == GlobalMessageSubscribe(init[j].tag);
          assert tags[j] == init[j];
        } else {
          assert m in TagPublish(tags[|tags| - 1], message);
        }
      }
      forall m: Message | m.payload == message && exists j :: 0 <= j < |tags| && Matches(tags[j], message) && m.channel == GlobalMessageSubscribe(tags[j].tag)
        ensures m in TagPublishes(tags, message)
      {
        var j :| 0 <= j < |tags| && Matches(tags[j], message) && m.channel == GlobalMessageSubscribe(tags[j].tag);
        if j < |init| {
          assert init[j] == tags[j];
        } else {
          assert m == Message(GlobalMessageSubscribe(tags[j].tag), message);
        }
      }
    }
  }

  lemma {:induction false} PublicationsPerChannel(tags: seq<TagSubscription>, message: Value, channel: string)
    ensures multiset(TagPublishes(tags, message))[Message(channel, message)] == |MatchingEntries(tags, message, channel)|
  {
    if tags == [] {
      assert MatchingEntries(tags, message, channel) == {};
    } else {
      var init := tags[..|tags| - 1];
      PublicationsPerChannel(init, message, channel);
      MatchingEntriesOfLast(tags, message, channel);
      assert multiset(TagPublishes(tags, message))
          == multiset(TagPublishes(init, message)) + multiset(TagPublish(tags[|tags| - 1], message));
    }
  }

  /** The last entry adds its own position, or nothing, to the matching positions of the others. */
  lemma MatchingEntriesOfLast(tags: seq<TagSubscription>, message: Value, channel: string)
    requires tags != []
    ensures var last := |tags| - 1;
      |MatchingEntries(tags, message, channel)| == |MatchingEntries(tags[..last], message, channel)|
        + if Matches(tags[last], message) && GlobalMessageSubscribe(tags[last].tag) == channel then 1 else 0
  {
    var init, last := tags[..|tags| - 1], |tags| - 1;
    var before := MatchingEntries(init, message, channel);
    assert forall j :: 0 <= j < |init| ==> tags[j] == init[j];
    if Matches(tags[last], message) && GlobalMessageSubscribe(tags[last].tag) == channel {
      assert MatchingEntries(tags, message, channel) == before + {last};
    } else {
      assert MatchingEntries(tags, message, channel) == before;
    }
  }

  /** Entries are handled in list order: the publications for a concatenated list are concatenated. */
  lemma {:induction false} TagPublishesInOrder(tags1: seq<TagSubscription>, tags2: seq<TagSubscription>, message: Value)
    ensures TagPublishes(tags1 + tags2, message) == TagPublishes(tags1, message) + TagPublishes(tags2, message)
  {
    if tags2 == [] {
      assert tags1 + tags2 == tags1;
    } else {
      var init2 := tags2[..|tags2| - 1];
      assert (tags1 + tags2)[..|tags1 + tags2| - 1] == tags1 + init2;
      assert (tags1 + tags2)[|tags1 + tags2| - 1] == tags2[|tags2| - 1];
      TagPublishesInOrder(tags1, init2, message);
    }
  }

  /**
   * A tag broadcast, delivered to any node's wrapper, becomes exactly one `'message'` event
   * carrying the message's `message` field and no socket call.
   */
  lemma TagBroadcastDelivered(tags: seq<TagSubscription>, message: Value, sockets: map<string, SocketId>)
    ensures forall m :: m in TagPublishes(tags, message) ==>
      Route(m.channel, m.payload, sockets) == Effect([], [Field(message, "message")])
  {
    TagPublishesExactly(tags, message);
    forall m | m in TagPublishes(tags, message)
      ensures Route(m.channel, m.payload, sockets) == Effect([], [Field(message, "message")])
    {
      var j :| 0 <= j < |tags| && Matches(tags[j], message) && m.channel == GlobalMessageSubscribe(tags[j].tag);
      GlobalChannelHasPrefix(tags[j].tag);
    }
  }

  class WebSocketServer {
    /** The wrapper whose socket map, tag list, broker client and transport this server shares. */
    const wrapper: ServerWrapper
    /**
     * The threshold the close sweep compares against. The code reads
     * `_this.HEALTHY_PING_COUNT_THRESHOLD`, which is never assigned on the instance (the
     * constant lives in the constants module), so as written this is `None`, i.e. `undefined`,
     * and nothing is ever closed. `Some(HEALTHY_PING_COUNT_THRESHOLD)` is the evident intent.
     */
    const threshold: Option<int>
    var health: HealthMap
    /** The `'message'` events emitted, in order. */
    var events: seq<Incoming>

    /** The server after `init` has handed it the wrapper's broker, map and tag list. */
    constructor(wrapper: ServerWrapper, threshold: Option<int>)
      ensures this.wrapper == wrapper && this.threshold == threshold
      ensures health == map[] && events == []
    {
      this.wrapper, this.threshold := wrapper, threshold;
      health, events := map[], [];
    }

    /**
     * The handler for a message from a client socket: for each tag entry in order, a
     * matching message is published on the tag's channel; then one `'message'` event is
     * emitted, whether or not any entry matched.
     */
    method OnSocketMessage(socket: SocketId, message: Value)
      requires wrapper.pubSub.Initialized()
      modifies wrapper.pubSub, this`events
      ensures wrapper.pubSub.published == old(wrapper.pubSub.published) + TagPublishes(wrapper.subscriptionTags, message)
      ensures wrapper.pubSub.subscribed == old(wrapper.pubSub.subscribed)
      ensures events == old(events) + [Incoming(message, socket)]
    {
      var tags := wrapper.subscriptionTags;
      var i := 0;
      while i < |tags|
        invariant 0 <= i <= |tags|
        invariant wrapper.pubSub.Initialized()
        invariant wrapper.pubSub.published == old(wrapper.pubSub.published) + TagPublishes(tags[..i], message)
        invariant wrapper.pubSub.subscribed == old(wrapper.pubSub.subscribed)
        invariant events == old(events)
      {
        assert tags[..i + 1][..i] == tags[..i];
        var entry := tags[i];
        if Field(message, entry.tagFieldKey) == Str(entry.tag) {
          wrapper.pubSub.Publish(GlobalMessageSubscribe(entry.tag), message);
        }
        i := i + 1;
      }
      assert tags[..|tags|] == tags;
      events := events + [Incoming(message, socket)];
    }

    /** The pong handler. */
    method RefreshSocket(socket: SocketId)
      modifies this`health
      ensures health == Refresh(old(health), socket)
    {
      health := health[socket := Health(true, 0)];
    }

    /**
     * `_sendPings`: visits the snapshot from its last key to its first, marking each socket
     * unhealthy, pinging it and counting the ping. The map itself is not changed.
     */
    method SendPings(snapshot: seq<string>)
      requires IsSnapshot(snapshot, wrapper.webSocketMap)
      modifies this`health, wrapper.transport
      ensures health == PingAll(old(health), VisitOrder(wrapper.webSocketMap, snapshot))
      ensures wrapper.transport.actions == old(wrapper.transport.actions) + Pings(VisitOrder(wrapper.webSocketMap, snapshot))
      ensures wrapper.webSocketMap == old(wrapper.webSocketMap)
    {
      var sockets := wrapper.webSocketMap;
      var index := |snapshot| - 1;
      while index >= 0
        invariant -1 <= index < |snapshot|
        invariant health == PingAll(old(health), VisitOrder(sockets, snapshot[index + 1..]))
        invariant wrapper.transport.actions == old(wrapper.transport.actions) + Pings(VisitOrder(sockets, snapshot[index + 1..]))
      {
        var s := sockets[snapshot[index]];
        ghost var done := VisitOrder(sockets, snapshot[index + 1..]);
        assert snapshot[index..][1..] == snapshot[index + 1..];
        assert (done + [s])[..|done|] == done;
        health := health[s := Health(false, CounterOf(health, s) + 1)];
        wrapper.transport.Ping(s);
        index := index - 1;
      }
    }

    /**
     * `_closeUnhealthySockets`: visits the snapshot from its last key to its first and
     * closes each socket that is unhealthy with a counter over the threshold. It changes
     * neither the liveness fields nor the map.
     */
    method CloseUnhealthySockets(snapshot: seq<string>)
      requires IsSnapshot(snapshot, wrapper.webSocketMap)
      modifies wrapper.transport
      ensures wrapper.transport.actions
              == old(wrapper.transport.actions) + Closes(health, VisitOrder(wrapper.webSocketMap, snapshot), threshold)
      ensures health == old(health) && wrapper.webSocketMap == old(wrapper.webSocketMap)
    {
      var sockets := wrapper.webSocketMap;
      var index := |snapshot| - 1;
      while index >= 0
        invariant -1 <= index < |snapshot|
        invariant wrapper.transport.actions
                  == old(wrapper.transport.actions) + Closes(health, VisitOrder(sockets, snapshot[index + 1..]), threshold)
      {
        var s := sockets[snapshot[index]];
        ghost var done := VisitOrder(sockets, snapshot[index + 1..]);
        assert snapshot[index..][1..] == snapshot[index + 1..];
        assert (done + [s])[..|done|] == done;
        if !(s in health && health[s].healthy) && s in health && threshold.Some? && health[s].pingCounter > threshold.value {
          wrapper.transport.Close(s);
        }
        index := index - 1;
      }
    }
  }
}
