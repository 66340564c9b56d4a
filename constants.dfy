/**
 * Shared constants: heartbeat timing, the broker channel names the dispatcher routes
 * on, the RPC exchange and its two reply bodies.
 */
module Constants {
  import opened Js

  // Heartbeat timing, in milliseconds, and the ping count past which a silent socket is closed.
  const PING_INTERVAL: int := 6 * 1000
  const PONG_DELAY: int := 20 * 1000
  const HEALTHY_PING_COUNT_THRESHOLD: int := 2

  // Publish/subscribe channels.
  const SEND_CHANNEL: string := "SEND_CHANNEL"
  const SOCKET_CLOSE_CHANNEL: string := "SOCKET_CLOSE_CHANNEL"
  const SUBSCRIBER_MESSAGE: string := "SUBSCRIBER_MESSAGE"

  // RPC exchange and reply bodies.
  const DIST_FUNC_EXCHANGE: string := "DIST_FUNC_EXCHANGE"
  const REMOTE_FUNC_SUCCESS_RESPONSE: string := "REMOTE_FUNC_SUCCESS_RESPONSE"
  const REMOTE_FUNC_FAIL_RESPONSE: string := "REMOTE_FUNC_FAIL_RESPONSE"

  const METHOD_SEND: string := "send"
  const METHOD_CLOSE: string := "close"

  /** The prefix every global tag channel starts with: the channel of the empty tag. */
  const GLOBAL_PREFIX: string := "GLOBAL_MESSAGE_SUBSCRIBE_"

  /** The channel on which messages carrying `tag` are broadcast to every node. */
  function GlobalMessageSubscribe(tag: string): (channel: string)
    ensures |channel| == |GLOBAL_PREFIX| + |tag|
    ensures StartsWith(channel, GLOBAL_PREFIX) && channel[|GLOBAL_PREFIX|..] == tag
  {
    GLOBAL_PREFIX + tag
  }

  /** The dispatcher's prefix test, `GLOBAL_MESSAGE_SUBSCRIBE('')`, accepts every tag channel. */
  lemma GlobalChannelHasPrefix(tag: string)
    ensures GlobalMessageSubscribe("") == GLOBAL_PREFIX
    ensures StartsWith(GlobalMessageSubscribe(tag), GlobalMessageSubscribe(""))
  {
  }

  /** Different tags get different channels. */
  lemma GlobalMessageSubscribeInjective(a: string, b: string)
    requires GlobalMessageSubscribe(a) == GlobalMessageSubscribe(b)
    ensures a == b
  {
    assert a == GlobalMessageSubscribe(a)[|GLOBAL_PREFIX|..];
  }

  /**
   * The two fixed channels differ and neither looks like a tag channel, so an incoming
   * channel is handled by at most one of the dispatcher's three branches.
   */
  lemma FixedChannelsAreDistinct()
    ensures SEND_CHANNEL != SOCKET_CLOSE_CHANNEL
    ensures !StartsWith(SEND_CHANNEL, GLOBAL_PREFIX)
    ensures !StartsWith(SOCKET_CLOSE_CHANNEL, GLOBAL_PREFIX)
  {
    assert SEND_CHANNEL[1] != SOCKET_CLOSE_CHANNEL[1];
    assert SEND_CHANNEL[0] != GLOBAL_PREFIX[0];
    assert SOCKET_CLOSE_CHANNEL[0] != GLOBAL_PREFIX[0];
  }

  /** A reply body tells success from failure. */
  lemma ResponsesAreDistinct()
    ensures REMOTE_FUNC_SUCCESS_RESPONSE != REMOTE_FUNC_FAIL_RESPONSE
  {
    assert REMOTE_FUNC_SUCCESS_RESPONSE[12] != REMOTE_FUNC_FAIL_RESPONSE[12];
  }
}
