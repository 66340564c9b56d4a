/**
 * Remote calls over an AMQP fanout exchange. A caller publishes a request carrying a
 * fresh correlation id and the name of its own reply queue; every responder bound to
 * the exchange runs its remote function on the content and answers on the reply queue
 * with the same correlation id; the caller hands to its callback the content of each
 * reply on that queue whose correlation id is its own.
 *
 * The broker is reduced to the log of what was published on the exchange, the reply
 * queues and the log of acknowledged requests.
 */
module AmqpRpc {
  import opened Js
  import opened Constants

  /** A message on `DIST_FUNC_EXCHANGE`: the call's content and the properties the caller set on it. */
  datatype Request = Request(content: string, correlationId: string, replyTo: string)

  /** A message on a reply queue. */
  datatype Reply = Reply(content: string, correlationId: string)

  /** A call in progress: the correlation id it waits for and the queue it consumes. */
  datatype PendingCall = PendingCall(correlationId: string, queue: string)

  /** The reply body for one report of the remote function. */
  function Response(failed: bool): (body: string)
    ensures body == REMOTE_FUNC_FAIL_RESPONSE <==> failed
    ensures body == REMOTE_FUNC_SUCCESS_RESPONSE <==> !failed
  {
    ResponsesAreDistinct();
    if failed then REMOTE_FUNC_FAIL_RESPONSE else REMOTE_FUNC_SUCCESS_RESPONSE
  }

  /** The reply to `req` for one report: it keeps the request's correlation id. */
  function ReplyFor(req: Request, failed: bool): (r: Reply)
    ensures r.correlationId == req.correlationId
    ensures r.content == Response(failed)
  {
    Reply(Response(failed), req.correlationId)
  }

  /** The replies to `req`, one per report of the remote function, in report order. */
  function RepliesFor(req: Request, reports: seq<bool>): (rs: seq<Reply>)
    ensures |rs| == |reports|
    ensures forall i :: 0 <= i < |reports| ==> rs[i] == ReplyFor(req, reports[i])
  {
    if reports == [] then [] else RepliesFor(req, reports[..|reports| - 1]) + [ReplyFor(req, reports[|reports| - 1])]
  }

  /**
   * `sendToQueue`: the reply is appended to the named queue; with no such queue the broker
   * routes it nowhere and drops it.
   */
  function Enqueue(queues: map<string, seq<Reply>>, queue: string, r: Reply): map<string, seq<Reply>> {
    if queue in queues then queues[queue := queues[queue] + [r]] else queues
  }

  /** `Enqueue` of several replies, in order. */
  function EnqueueAll(queues: map<string, seq<Reply>>, queue: string, rs: seq<Reply>): map<string, seq<Reply>> {
    if rs == [] then queues else Enqueue(EnqueueAll(queues, queue, rs[..|rs| - 1]), queue, rs[|rs| - 1])
  }

  /** Sending to an existing queue appends to it and to nothing else; a missing queue changes nothing. */
  lemma {:induction false} EnqueueAllEffect(queues: map<string, seq<Reply>>, queue: string, rs: seq<Reply>)
    ensures queue in queues ==> EnqueueAll(queues, queue, rs) == queues[queue := queues[queue] + rs]
    ensures queue !in queues ==> EnqueueAll(queues, queue, rs) == queues
  {
    if rs == [] {
      if queue in queues {
        assert queues[queue] + rs == queues[queue];
      }
    } else {
      var init := rs[..|rs| - 1];
      EnqueueAllEffect(queues, queue, init);
      if queue in queues {
        assert queues[queue] + init + [rs[|rs| - 1]] == queues[queue] + rs;
      }
    }
  }

  /** Sending the replies for one more report appends that report's reply. */
  lemma EnqueueNextReply(queues: map<string, seq<Reply>>, queue: string, req: Request, reports: seq<bool>, i: nat)
    requires i < |reports|
    ensures EnqueueAll(queues, queue, RepliesFor(req, reports[..i + 1]))
            == Enqueue(EnqueueAll(queues, queue, RepliesFor(req, reports[..i])), queue, ReplyFor(req, reports[i]))
  {
    assert reports[..i + 1][..i] == reports[..i];
  }

  /** The contents a caller waiting for `corr` hands to its callback for the replies `rs`, in order. */
  function Delivered(corr: string, rs: seq<Reply>): seq<string> {
    if rs == [] then []
    else Delivered(corr, rs[..|rs| - 1]) + (if rs[|rs| - 1].correlationId == corr then [rs[|rs| - 1].content] else [])
  }

  /** Consuming a queue piece by piece delivers the same as consuming it at once. */
  lemma {:induction false} DeliveredInOrder(corr: string, rs1: seq<Reply>, rs2: seq<Reply>)
    ensures Delivered(corr, rs1 + rs2) == Delivered(corr, rs1) + Delivered(corr, rs2)
  {
    if rs2 == [] {
      assert rs1 + rs2 == rs1;
    } else {
      var init2 := rs2[..|rs2| - 1];
      assert (rs1 + rs2)[..|rs1 + rs2| - 1] == rs1 + init2;
      assert (rs1 + rs2)[|rs1 + rs2| - 1] == rs2[|rs2| - 1];
      DeliveredInOrder(corr, rs1, init2);
    }
  }

  /**
   * The callback receives a content exactly when some reply carries it with the caller's
   * correlation id; it is never called more often than there are replies.
   */
  lemma {:induction false} DeliveredExactly(corr: string, rs: seq<Reply>)
    ensures |Delivered(corr, rs)| <= |rs|
    ensures forall c :: c in Delivered(corr, rs) <==> exists i :: 0 <= i < |rs| && rs[i].correlationId == corr && rs[i].content == c
  {
    if rs != [] {
      var init := rs[..|rs| - 1];
      DeliveredExactly(corr, init);
      forall c | c in Delivered(corr, rs)
        ensures exists i :: 0 <= i < |rs| && rs[i].correlationId == corr && rs[i].content == c
      {
        if c in Delivered(corr, init) {
          var i :| 0 <= i < |init| && init[i].correlationId == corr && init[i].content == c;
          assert rs[i] == init[i];
        } else {
          assert rs[|rs| - 1].correlationId == corr && rs[|rs| - 1].content == c;
        }
      }
      forall c | exists i :: 0 <= i < |rs| && rs[i].correlationId == corr && rs[i].content == c
        ensures c in Delivered(corr, rs)
      {
        var i :| 0 <= i < |rs| && rs[i].correlationId == corr && rs[i].content == c;
        if i < |init| {
          assert init[i] == rs[i];
        }
      }
    }
  }

  /** Without a reply carrying its correlation id the callback is never called: there is no timeout path. */
  lemma NoMatchNoCallback(corr: string, rs: seq<Reply>)
    requires forall i :: 0 <= i < |rs| ==> rs[i].correlationId != corr
    ensures Delivered(corr, rs) == []
  {
    DeliveredExactly(corr, rs);
  }

  /**
   * The replies to a request, one per report, all reach its caller: nothing is
   * de-duplicated, so the callback runs once per report with the matching body.
   */
  lemma {:induction false} EveryReplyDelivered(req: Request, reports: seq<bool>)
    ensures Delivered(req.correlationId, RepliesFor(req, reports)) == ResponsesOf(reports)
  {
    if reports != [] {
      var init, last := reports[..|reports| - 1], reports[|reports| - 1];
      var rs := RepliesFor(req, reports);
      assert rs == RepliesFor(req, init) + [ReplyFor(req, last)];
      assert rs[..|rs| - 1] == RepliesFor(req, init);
      EveryReplyDelivered(req, init);
    }
  }

  /** The reply bodies for a sequence of reports. */
  function ResponsesOf(reports: seq<bool>): seq<string> {
    if reports == [] then [] else ResponsesOf(reports[..|reports| - 1]) + [Response(reports[|reports| - 1])]
  }

  lemma {:induction false} ResponsesOfShape(reports: seq<bool>)
    ensures |ResponsesOf(reports)| == |reports|
    ensures forall i :: 0 <= i < |reports| ==> ResponsesOf(reports)[i] == Response(reports[i])
  {
    if reports != [] {
      ResponsesOfShape(reports[..|reports| - 1]);
    }
  }

  /**
   * A fan-out call answered by a fleet of responders, each reporting once: the caller's
   * callback runs once per responder, with `REMOTE_FUNC_FAIL_RESPONSE` exactly for those
   * whose remote function failed. No first reply wins.
   */
  lemma FleetAnswers(req: Request, reports: seq<bool>)
    ensures |Delivered(req.correlationId, RepliesFor(req, reports))| == |reports|
    ensures forall i :: 0 <= i < |reports| ==>
      (Delivered(req.correlationId, RepliesFor(req, reports))[i] == REMOTE_FUNC_FAIL_RESPONSE <==> reports[i])
  {
    EveryReplyDelivered(req, reports);
    ResponsesOfShape(reports);
  }

  /** Sending two batches of replies to a queue is sending their concatenation. */
  lemma EnqueueAllConcat(queues: map<string, seq<Reply>>, queue: string, rs1: seq<Reply>, rs2: seq<Reply>)
    ensures EnqueueAll(EnqueueAll(queues, queue, rs1), queue, rs2) == EnqueueAll(queues, queue, rs1 + rs2)
  {
    EnqueueAllEffect(queues, queue, rs1);
    EnqueueAllEffect(EnqueueAll(queues, queue, rs1), queue, rs2);
    EnqueueAllEffect(queues, queue, rs1 + rs2);
    if queue in queues {
      assert queues[queue] + rs1 + rs2 == queues[queue] + (rs1 + rs2);
    }
  }

  /** The replies for two runs of reports are the replies for each, one after the other. */
  lemma RepliesForConcat(req: Request, reports1: seq<bool>, reports2: seq<bool>)
    ensures RepliesFor(req, reports1 + reports2) == RepliesFor(req, reports1) + RepliesFor(req, reports2)
  {
    var rs, rs1, rs2 := RepliesFor(req, reports1 + reports2), RepliesFor(req, reports1), RepliesFor(req, reports2);
    assert forall i :: 0 <= i < |rs| ==> rs[i] == (rs1 + rs2)[i] by {
      forall i | 0 <= i < |rs|
        ensures rs[i] == (rs1 + rs2)[i]
      {
        if i >= |reports1| {
          assert (reports1 + reports2)[i] == reports2[i - |reports1|];
        }
      }
    }
  }

  /** All the reports of a fleet of responders, responder by responder. */
  function AllReports(fleet: seq<seq<bool>>): seq<bool> {
    if fleet == [] then [] else AllReports(fleet[..|fleet| - 1]) + fleet[|fleet| - 1]
  }

  /**
   * The reply queues after each responder of `fleet`, in turn, has answered `req`:
   * one `Responder.OnRequest` per entry, with that responder's reports.
   */
  function FleetQueues(queues: map<string, seq<Reply>>, req: Request, fleet: seq<seq<bool>>): map<string, seq<Reply>> {
    if fleet == [] then queues
    else EnqueueAll(FleetQueues(queues, req, fleet[..|fleet| - 1]), req.replyTo, RepliesFor(req, fleet[|fleet| - 1]))
  }

  /**
   * Responders answering one after another leave on the reply queue exactly the replies
   * to all their reports, in the order they answered: `FleetAnswers` then applies to the
   * fleet's reports taken together.
   */
  lemma {:induction false} FleetRepliesQueued(queues: map<string, seq<Reply>>, req: Request, fleet: seq<seq<bool>>)
    ensures FleetQueues(queues, req, fleet) == EnqueueAll(queues, req.replyTo, RepliesFor(req, AllReports(fleet)))
  {
    if fleet != [] {
      var init, last := fleet[..|fleet| - 1], fleet[|fleet| - 1];
      FleetRepliesQueued(queues, req, init);
      RepliesForConcat(req, AllReports(init), last);
      EnqueueAllConcat(queues, req.replyTo, RepliesFor(req, AllReports(init)), RepliesFor(req, last));
    }
  }

  class Broker {
    /** Requests published on `DIST_FUNC_EXCHANGE`, in order. */
    var exchange: seq<Request>
    /** The reply queues that exist and the replies waiting in each. */
    var queues: map<string, seq<Reply>>
    /** Requests acknowledged by a responder, in order. */
    var acked: seq<Request>

    constructor()
      ensures exchange == [] && queues == map[] && acked == []
    {
      exchange, queues, acked := [], map[], [];
    }

    /** `assertQueue('')`: a new exclusive queue under a name the broker chose. */
    method AssertQueue(name: string)
      requires name !in queues
      modifies this`queues
      ensures queues == old(queues)[name := []]
    {
      queues := queues[name := []];
    }

    method Publish(req: Request)
      modifies this`exchange
      ensures exchange == old(exchange) + [req]
    {
      exchange := exchange + [req];
    }

    method SendToQueue(queue: string, r: Reply)
      modifies this`queues
      ensures queues == Enqueue(old(queues), queue, r)
    {
      if queue in queues {
        queues := queues[queue := queues[queue] + [r]];
      }
    }

    method Ack(req: Request)
      modifies this`acked
      ensures acked == old(acked) + [req]
    {
      acked := acked + [req];
    }
  }

  /** The consuming side of `initServerProcess`. */
  class Responder {
    const broker: Broker
    /** The contents passed to the remote function, one per consumed request. */
    var remoteCalls: seq<string>

    constructor(broker: Broker)
      ensures this.broker == broker && remoteCalls == []
    {
      this.broker := broker;
      remoteCalls := [];
    }

    /**
     * The consume callback for one request. The remote function is called once with the
     * request's content; `reports` are the errors it hands to its callback before
     * returning, one entry per invocation (true when it reports an error), and each
     * invocation sends one reply to `replyTo`. Then the request is acknowledged.
     */
    method OnRequest(msg: Request, reports: seq<bool>)
      modifies this`remoteCalls, broker`queues, broker`acked
      ensures remoteCalls == old(remoteCalls) + [msg.content]
      ensures broker.queues == EnqueueAll(old(broker.queues), msg.replyTo, RepliesFor(msg, reports))
      ensures broker.acked == old(broker.acked) + [msg]
      ensures broker.exchange == old(broker.exchange)
    {
      remoteCalls := remoteCalls + [msg.content];
      var i := 0;
      while i < |reports|
        invariant 0 <= i <= |reports|
        invariant broker.queues == EnqueueAll(old(broker.queues), msg.replyTo, RepliesFor(msg, reports[..i]))
        invariant broker.acked == old(broker.acked)
        invariant remoteCalls == old(remoteCalls) + [msg.content]
      {
        EnqueueNextReply(old(broker.queues), msg.replyTo, msg, reports, i);
        if reports[i] {
          broker.SendToQueue(msg.replyTo, Reply(REMOTE_FUNC_FAIL_RESPONSE, msg.correlationId));
        } else {
          broker.SendToQueue(msg.replyTo, Reply(REMOTE_FUNC_SUCCESS_RESPONSE, msg.correlationId));
        }
        i := i + 1;
      }
      assert reports[..|reports|] == reports;
      broker.Ack(msg);
    }
  }

  /** The calling side, `remoteCall`. */
  class Caller {
    const broker: Broker
    /** The contents handed to the callback, in order. */
    var results: seq<string>

    constructor(broker: Broker)
      ensures this.broker == broker && results == []
    {
      this.broker := broker;
      results := [];
    }

    /**
     * Creates the reply queue `queue`, then publishes the request with the fresh
     * correlation id `corr` and `queue` as `replyTo`.
     */
    method RemoteCall(content: string, corr: string, queue: string) returns (call: PendingCall)
      requires queue !in broker.queues
      modifies broker`queues, broker`exchange
      ensures call == PendingCall(corr, queue)
      ensures broker.queues == old(broker.queues)[queue := []]
      ensures broker.exchange == old(broker.exchange) + [Request(content, corr, queue)]
    {
      broker.AssertQueue(queue);
      broker.Publish(Request(content, corr, queue));
      call := PendingCall(corr, queue);
    }

    /** The consumer of the reply queue: the callback gets the content only if the ids match. */
    method OnReply(call: PendingCall, msg: Reply)
      modifies this`results
      ensures results == old(results) + Delivered(call.correlationId, [msg])
    {
      if msg.correlationId == call.correlationId {
        results := results + [msg.content];
      }
    }
  }
}
