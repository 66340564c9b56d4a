/**
 * The Redis publish/subscribe adapter: one client for publishing, one for subscribing,
 * and every message the subscriber client receives re-emitted unchanged to the layer
 * above. Each Redis client is represented by the configuration it was created with and
 * by the log of calls made on it.
 */
module RedisPubSub {
  import opened Js
  import opened RedisClient

  /** A `(channel, message)` pair, as published or as received. */
  datatype Message = Message(channel: string, payload: Value)

  class PubSub {
    var subscriber: Option<ClientConfig>
    var publisher: Option<ClientConfig>
    /** `publish(channel, payload)` calls made on the publisher client, in order. */
    var published: seq<Message>
    /** `subscribe(channel)` calls made on the subscriber client, in order. */
    var subscribed: seq<string>
    /** `'message'` events this adapter emitted, in order. */
    var emitted: seq<Message>

    constructor()
      ensures subscriber == None && publisher == None
      ensures published == [] && subscribed == [] && emitted == []
    {
      subscriber, publisher := None, None;
      published, subscribed, emitted := [], [], [];
    }

    /** Both clients exist: `init` has run. */
    predicate Initialized()
      reads this
    {
      subscriber.Some? && publisher.Some?
    }

    /**
     * `init`: creates both clients directly, so neither gets the `_retry` strategy
     * (`createRedisClient`, which would install it, is not used here).
     */
    method Init(host: string, port: int)
      modifies this
      ensures Initialized()
      ensures subscriber == Some(ClientConfig(host, port, false))
      ensures publisher == Some(ClientConfig(host, port, false))
      ensures !subscriber.value.retryStrategy && !publisher.value.retryStrategy
      ensures published == old(published) && subscribed == old(subscribed) && emitted == old(emitted)
    {
      subscriber := Some(ClientConfig(host, port, false));
      publisher := Some(ClientConfig(host, port, false));
    }

    /** `publish`: forwards exactly `(channel, payload)` to the publisher client, once. */
    method Publish(channel: string, payload: Value)
      requires Initialized()
      modifies this
      ensures published == old(published) + [Message(channel, payload)]
      ensures subscribed == old(subscribed) && emitted == old(emitted)
      ensures subscriber == old(subscriber) && publisher == old(publisher)
    {
      published := published + [Message(channel, payload)];
    }

    /** `subscribe`: forwards exactly `channel` to the subscriber client, once. */
    method Subscribe(channel: string)
      requires Initialized()
      modifies this
      ensures subscribed == old(subscribed) + [channel]
      ensures published == old(published) && emitted == old(emitted)
      ensures subscriber == old(subscriber) && publisher == old(publisher)
    {
      subscribed := subscribed + [channel];
    }

    /** The listener `init` installs on the subscriber client: re-emit what arrived, unchanged. */
    method OnSubscriberMessage(channel: string, payload: Value)
      requires Initialized()
      modifies this
      ensures emitted == old(emitted) + [Message(channel, payload)]
      ensures published == old(published) && subscribed == old(subscribed)
      ensures subscriber == old(subscriber) && publisher == old(publisher)
    {
      emitted := emitted + [Message(channel, payload)];
    }
  }
}
