/**
 * The connection transport, seen only through the calls the core makes on a socket:
 * `send`, `close` and `ping`. A socket is an opaque identity; the log records every
 * call in order.
 */
module Transport {
  import opened Js

  /** An accepted connection. Two map keys may name the same socket. */
  type SocketId = nat

  /**
   * One call on a socket. `SendJson(s, v)` is `s.send(JSON.stringify(v))`: the socket is
   * handed the JSON text of `v`.
   */
  datatype SocketAction = SendJson(socket: SocketId, message: Value) | Close(socket: SocketId) | Ping(socket: SocketId)

  class SocketLog {
    var actions: seq<SocketAction>

    constructor()
      ensures actions == []
    {
      actions := [];
    }

    method Send(socket: SocketId, message: Value)
      modifies this
      ensures actions == old(actions) + [SendJson(socket, message)]
    {
      actions := actions + [SendJson(socket, message)];
    }

    method Close(socket: SocketId)
      modifies this
      ensures actions == old(actions) + [SocketAction.Close(socket)]
    {
      actions := actions + [SocketAction.Close(socket)];
    }

    method Ping(socket: SocketId)
      modifies this
      ensures actions == old(actions) + [SocketAction.Ping(socket)]
    {
      actions := actions + [SocketAction.Ping(socket)];
    }
  }
}
