/**
 * The Redis key/value store adapter: `set` forwards to the client without waiting for an
 * acknowledgement; `get` maps the client's reply to the callback's `(error, value)` form.
 */
module RedisStore {
  import opened Js
  import opened RedisClient

  /** What `get` hands its callback: `callback(true)` or `callback(null, value)`. */
  datatype GetReply = Failed | Found(value: string)

  /**
   * The callback argument of `get` for a client reply: an error, a missing reply
   * (`None`) and an empty string all read as failure; anything else is returned as is.
   */
  function GetResult(clientError: bool, reply: Option<string>): (r: GetReply)
    ensures r.Found? <==> !clientError && reply.Some? && reply.value != ""
    ensures r.Found? ==> r.value == reply.value
  {
    if clientError || reply.None? || reply.value == "" then Failed else Found(reply.value)
  }

  class Store {
    var client: Option<ClientConfig>
    /** `set(key, value)` calls made on the client, in order. */
    var sets: seq<(string, string)>
    /** `get(key)` calls made on the client, in order. */
    var gets: seq<string>

    constructor()
      ensures client == None && sets == [] && gets == []
    {
      client, sets, gets := None, [], [];
    }

    /** `init`: creates the client through `_createRedisClient`, so `_retry` is installed. */
    method Init(host: string, port: int)
      modifies this
      ensures client == Some(CreateRedisClient(host, port)) && client.value.retryStrategy
      ensures sets == old(sets) && gets == old(gets)
    {
      client := Some(CreateRedisClient(host, port));
    }

    /** `set`: forwards key and value unchanged to the client. */
    method Set(key: string, value: string)
      requires client.Some?
      modifies this
      ensures sets == old(sets) + [(key, value)]
      ensures client == old(client) && gets == old(gets)
    {
      sets := sets + [(key, value)];
    }

    /**
     * `get`: asks the client for `key`; `clientError` and `reply` are what the client
     * answers, and the result is what the callback receives.
     */
    method Get(key: string, clientError: bool, reply: Option<string>) returns (r: GetReply)
      requires client.Some?
      modifies this
      ensures gets == old(gets) + [key]
      ensures r == GetResult(clientError, reply)
      ensures client == old(client) && sets == old(sets)
    {
      gets := gets + [key];
      r := GetResult(clientError, reply);
    }
  }
}
