/**
 * The SQS worker pool of consumer.go. ReceiveMessage, the handler and
 * DeleteMessage are scripted: each poll of the script says whether the
 * context was already cancelled at the top of that iteration and what
 * ReceiveMessage answered, and each delivered message carries the outcome
 * of its handler call and of its delete call. A worker's life is observed as
 * the sequence of calls it makes.
 */
module SqsConsumer {
  import Sync

  /** Go's int32. */
  type Int32 = x: int | -0x8000_0000 <= x < 0x8000_0000

  datatype Config = Config(
    tableName: string,
    queueUrl: string,
    region: string,
    numWorkers: int,
    batchSize: Int32,
    waitTimeSeconds: Int32)

  datatype ReceiveMessageInput = ReceiveMessageInput(
    queueUrl: string,
    maxNumberOfMessages: Int32,
    waitTimeSeconds: Int32,
    messageAttributeNames: seq<string>)

  /** A worker: its configuration and the receive request it reuses on every poll. */
  datatype Worker = Worker(config: Config, input: ReceiveMessageInput)

  /** NewWorker, without the AWS client: the receive request is built from the configuration. */
  function NewWorker(cfg: Config): (w: Worker)
    ensures w.config == cfg
    ensures w.input.queueUrl == cfg.queueUrl
    ensures w.input.maxNumberOfMessages == cfg.batchSize && w.input.waitTimeSeconds == cfg.waitTimeSeconds
    ensures w.input.messageAttributeNames == ["All"]
  {
    Worker(cfg, ReceiveMessageInput(cfg.queueUrl, cfg.batchSize, cfg.waitTimeSeconds, ["All"]))
  }

  datatype Message = Message(messageId: string, receiptHandle: string, body: string, messageAttributes: map<string, string>)

  /** A received message with the scripted outcomes of its handler call and of its delete call. */
  datatype Delivery = Delivery(message: Message, handlerFails: bool, deleteFails: bool)

  datatype ReceiveResult = ReceiveError | Received(deliveries: seq<Delivery>)

  /** One iteration of the worker loop: the state of the context at its top, and the receive answer. */
  datatype Poll = Poll(cancelled: bool, receive: ReceiveResult)

  datatype DeleteMessageInput = DeleteMessageInput(queueUrl: string, receiptHandle: string)

  /** The calls a worker makes into SQS and into the handler. */
  datatype Call =
    | ReceiveCall(input: ReceiveMessageInput)
    | HandlerCall(message: Message, region: string, tableName: string)
    | DeleteCall(delete: DeleteMessageInput)

  /** Handle one message; delete it only if the handler succeeded. */
  function DeliveryCalls(cfg: Config, d: Delivery): seq<Call> {
    [HandlerCall(d.message, cfg.region, cfg.tableName)] +
    if d.handlerFails then [] else [DeleteCall(DeleteMessageInput(cfg.queueUrl, d.message.receiptHandle))]
  }

  /** The calls for one received batch, message by message. */
  function BatchCalls(cfg: Config, ds: seq<Delivery>): seq<Call> {
    if ds == [] then [] else DeliveryCalls(cfg, ds[0]) + BatchCalls(cfg, ds[1..])
  }

  /** One iteration past the cancellation check: a receive, then the batch if there was one. */
  function IterationCalls(w: Worker, r: ReceiveResult): seq<Call> {
    [ReceiveCall(w.input)] + if r.ReceiveError? then [] else BatchCalls(w.config, r.deliveries)
  }

  /** The calls a worker makes over the polls of the script, stopping at a cancelled one. */
  function ConsumeCalls(w: Worker, polls: seq<Poll>): seq<Call> {
    if polls == [] || polls[0].cancelled then []
    else IterationCalls(w, polls[0].receive) + ConsumeCalls(w, polls[1..])
  }

  /** Whether some poll of the script finds the context cancelled. */
  predicate SeesCancel(polls: seq<Poll>) {
    exists k :: 0 <= k < |polls| && polls[k].cancelled
  }

  /**
   * The inner loop of consume: call the handler on each received message in
   * order and delete the message when the handler succeeded. A failed delete
   * is only logged.
   */
  method HandleBatch(cfg: Config, messages: seq<Delivery>) returns (calls: seq<Call>)
    ensures calls == BatchCalls(cfg, messages)
  {
    calls := [];
    var rest := messages;
    while rest != []
      invariant calls + BatchCalls(cfg, rest) == BatchCalls(cfg, messages)
      decreases |rest|
    {
      DeliveryStep(cfg, calls, rest);
      var message := rest[0].message;
      calls := calls + [HandlerCall(message, cfg.region, cfg.tableName)];
      if !rest[0].handlerFails {
        calls := calls + [DeleteCall(DeleteMessageInput(cfg.queueUrl, message.receiptHandle))];
      }
      rest := rest[1..];
    }
  }

  /** One message of HandleBatch, seen from the calls made before it. */
  lemma DeliveryStep(cfg: Config, before: seq<Call>, ds: seq<Delivery>)
    requires ds != []
    ensures var handled := before + [HandlerCall(ds[0].message, cfg.region, cfg.tableName)];
      before + BatchCalls(cfg, ds) ==
        (if ds[0].handlerFails then handled
         else handled + [DeleteCall(DeleteMessageInput(cfg.queueUrl, ds[0].message.receiptHandle))]) +
        BatchCalls(cfg, ds[1..])
  {
  }

  /**
   * consume: the worker loop over the script. stopped is true when the
   * worker observed cancellation and returned; false means the script ended
   * with the worker still running.
   */
  method Consume(w: Worker, polls: seq<Poll>) returns (calls: seq<Call>, stopped: bool)
    ensures calls == ConsumeCalls(w, polls)
    ensures stopped <==> SeesCancel(polls)
  {
    calls := [];
    stopped := false;
    var rest := polls;
    while rest != []
      invariant calls + ConsumeCalls(w, rest) == ConsumeCalls(w, polls)
      invariant SeesCancel(polls) <==> SeesCancel(rest)
      decreases |rest|
    {
      if rest[0].cancelled {
        assert SeesCancel(rest) by { assert rest[0].cancelled; }
        stopped := true;
        return;
      }
      var receive := rest[0].receive;
      var done: seq<Call> := [];
      if receive.Received? {
        done := HandleBatch(w.config, receive.deliveries);
      }
      PollStep(w, calls, rest, done);
      calls := calls + [ReceiveCall(w.input)] + done;
      CancelLater(rest);
      rest := rest[1..];
    }
  }

  /** One uncancelled iteration of consume, seen from the calls made before it. */
  lemma PollStep(w: Worker, before: seq<Call>, polls: seq<Poll>, done: seq<Call>)
    requires polls != [] && !polls[0].cancelled
    requires done == if polls[0].receive.ReceiveError? then [] else BatchCalls(w.config, polls[0].receive.deliveries)
    ensures before + ConsumeCalls(w, polls) == (before + [ReceiveCall(w.input)] + done) + ConsumeCalls(w, polls[1..])
  {
    var it, tail := [ReceiveCall(w.input)] + done, ConsumeCalls(w, polls[1..]);
    assert IterationCalls(w, polls[0].receive) == it;
    assert ConsumeCalls(w, polls) == it + tail;
    assert before + [ReceiveCall(w.input)] + done == before + it;
    assert before + (it + tail) == (before + it) + tail;
  }

  /** Past an uncancelled first poll, a cancellation can only come later. */
  lemma CancelLater(polls: seq<Poll>)
    requires polls != [] && !polls[0].cancelled
    ensures SeesCancel(polls) <==> SeesCancel(polls[1..])
  {
    if SeesCancel(polls) {
      var k :| 0 <= k < |polls| && polls[k].cancelled;
      assert polls[1..][k - 1].cancelled;
    }
    if SeesCancel(polls[1..]) {
      var k :| 0 <= k < |polls[1..]| && polls[1..][k].cancelled;
      assert polls[k + 1].cancelled;
    }
  }

  /** start: launch workers 0 .. NumWorkers-1, adding 1 to the wait group for each. */
  method Start(w: Worker, wg: Sync.WaitGroup) returns (workerIds: seq<int>)
    modifies wg
    ensures |workerIds| == if w.config.numWorkers <= 0 then 0 else w.config.numWorkers
    ensures forall i :: 0 <= i < |workerIds| ==> workerIds[i] == i
    ensures wg.counter == old(wg.counter) + |workerIds|
  {
    workerIds := [];
    var i := 0;
    while i < w.config.numWorkers
      invariant 0 <= i <= if w.config.numWorkers <= 0 then 0 else w.config.numWorkers
      invariant |workerIds| == i && forall k :: 0 <= k < i ==> workerIds[k] == k
      invariant wg.counter == old(wg.counter) + i
    {
      wg.Add(1);
      workerIds := workerIds + [i];
      i := i + 1;
    }
  }

  /** The messages the handler is called with, in call order. */
  function Handled(calls: seq<Call>): seq<Message> {
    if calls == [] then []
    else (if calls[0].HandlerCall? then [calls[0].message] else []) + Handled(calls[1..])
  }

  /** The delete requests issued, in call order. */
  function Deleted(calls: seq<Call>): seq<DeleteMessageInput> {
    if calls == [] then []
    else (if calls[0].DeleteCall? then [calls[0].delete] else []) + Deleted(calls[1..])
  }

  /** The number of receive calls. */
  function Receives(calls: seq<Call>): nat {
    if calls == [] then 0 else (if calls[0].ReceiveCall? then 1 else 0) + Receives(calls[1..])
  }

  function Messages(ds: seq<Delivery>): (ms: seq<Message>)
    ensures |ms| == |ds| && forall k :: 0 <= k < |ds| ==> ms[k] == ds[k].message
  {
    if ds == [] then [] else [ds[0].message] + Messages(ds[1..])
  }

  /** The deletes that should follow a batch: one per message whose handler succeeded, in batch order. */
  function DeletesFor(cfg: Config, ds: seq<Delivery>): seq<DeleteMessageInput> {
    if ds == [] then []
    else if ds[0].handlerFails then DeletesFor(cfg, ds[1..])
    else [DeleteMessageInput(cfg.queueUrl, ds[0].message.receiptHandle)] + DeletesFor(cfg, ds[1..])
  }

  lemma {:induction false} HandledDistributes(a: seq<Call>, b: seq<Call>)
    ensures Handled(a + b) == Handled(a) + Handled(b)
  {
    if a == [] {
      assert a + b == b;
    } else {
      var c := a + b;
      assert c[0] == a[0];
      assert c[1..] == a[1..] + b;
      HandledDistributes(a[1..], b);
      var h := if a[0].HandlerCall? then [a[0].message] else [];
      assert Handled(c) == h + Handled(c[1..]);
      assert Handled(a) == h + Handled(a[1..]);
      assert h + (Handled(a[1..]) + Handled(b)) == (h + Handled(a[1..])) + Handled(b);
    }
  }

  lemma {:induction false} DeletedDistributes(a: seq<Call>, b: seq<Call>)
    ensures Deleted(a + b) == Deleted(a) + Deleted(b)
  {
    if a == [] {
      assert a + b == b;
    } else {
      var c := a + b;
      assert c[0] == a[0];
      assert c[1..] == a[1..] + b;
      DeletedDistributes(a[1..], b);
      var d := if a[0].DeleteCall? then [a[0].delete] else [];
      assert Deleted(c) == d + Deleted(c[1..]);
      assert Deleted(a) == d + Deleted(a[1..]);
      assert d + (Deleted(a[1..]) + Deleted(b)) == (d + Deleted(a[1..])) + Deleted(b);
    }
  }

  lemma {:induction false} ReceivesDistributes(a: seq<Call>, b: seq<Call>)
    ensures Receives(a + b) == Receives(a) + Receives(b)
  {
    if a == [] {
      assert a + b == b;
    } else {
      var c := a + b;
      assert c[0] == a[0];
      assert c[1..] == a[1..] + b;
      ReceivesDistributes(a[1..], b);
      assert Receives(c) == (if a[0].ReceiveCall? then 1 else 0) + Receives(c[1..]);
    }
  }

  /** The three call filters distribute over concatenation of call sequences. */
  lemma FiltersDistribute(a: seq<Call>, b: seq<Call>)
    ensures Handled(a + b) == Handled(a) + Handled(b)
    ensures Deleted(a + b) == Deleted(a) + Deleted(b)
    ensures Receives(a + b) == Receives(a) + Receives(b)
  {
    HandledDistributes(a, b);
    DeletedDistributes(a, b);
    ReceivesDistributes(a, b);
  }

  /**
   * Within one batch the handler is called once per message, in order, and a
   * delete is issued, with the message's own receipt handle and the
   * configured queue URL, exactly for the messages whose handler succeeded.
   * A handler failure or a delete failure does not stop the rest of the batch.
   */
  lemma {:induction false} BatchHandlesAllAndDeletesSucceeded(cfg: Config, ds: seq<Delivery>)
    ensures Handled(BatchCalls(cfg, ds)) == Messages(ds)
    ensures Deleted(BatchCalls(cfg, ds)) == DeletesFor(cfg, ds)
    ensures Receives(BatchCalls(cfg, ds)) == 0
  {
    if ds != [] {
      var first := DeliveryCalls(cfg, ds[0]);
      FiltersDistribute(first, BatchCalls(cfg, ds[1..]));
      BatchHandlesAllAndDeletesSucceeded(cfg, ds[1..]);
      if !ds[0].handlerFails {
        assert first == [HandlerCall(ds[0].message, cfg.region, cfg.tableName)] +
          [DeleteCall(DeleteMessageInput(cfg.queueUrl, ds[0].message.receiptHandle))];
        FiltersDistribute([first[0]], [first[1]]);
      }
    }
  }

  /**
   * A failed delete is only logged: two batches that differ only in which
   * deletes fail make the same calls, so the batch goes on after a failure.
   */
  lemma {:induction false} DeleteFailuresIgnored(cfg: Config, ds: seq<Delivery>, ds': seq<Delivery>)
    requires |ds| == |ds'|
    requires forall k :: 0 <= k < |ds| ==> ds[k].message == ds'[k].message && ds[k].handlerFails == ds'[k].handlerFails
    ensures BatchCalls(cfg, ds) == BatchCalls(cfg, ds')
  {
    if ds != [] {
      assert DeliveryCalls(cfg, ds[0]) == DeliveryCalls(cfg, ds'[0]);
      DeleteFailuresIgnored(cfg, ds[1..], ds'[1..]);
    }
  }

  /** A receive error makes one receive call and nothing else in that iteration. */
  lemma ReceiveErrorIteration(w: Worker)
    ensures IterationCalls(w, ReceiveError) == [ReceiveCall(w.input)]
    ensures Handled(IterationCalls(w, ReceiveError)) == [] && Deleted(IterationCalls(w, ReceiveError)) == []
  {
    assert IterationCalls(w, ReceiveError)[1..] == [];
  }

  /** The index of the first poll that finds the context cancelled, or the script length. */
  function FirstCancel(polls: seq<Poll>): (k: nat)
    ensures k <= |polls|
    ensures forall j :: 0 <= j < k ==> !polls[j].cancelled
    ensures k < |polls| ==> polls[k].cancelled
  {
    if polls == [] || polls[0].cancelled then 0 else 1 + FirstCancel(polls[1..])
  }

  /**
   * The worker receives once per iteration before the first cancelled poll
   * and never after it: the calls are those of the polls before it.
   */
  lemma {:induction false} CancelEndsWorker(w: Worker, polls: seq<Poll>)
    ensures Receives(ConsumeCalls(w, polls)) == FirstCancel(polls)
    ensures ConsumeCalls(w, polls) == ConsumeCalls(w, polls[..FirstCancel(polls)])
  {
    if polls != [] && !polls[0].cancelled {
      var it := IterationCalls(w, polls[0].receive);
      CancelEndsWorker(w, polls[1..]);
      FiltersDistribute(it, ConsumeCalls(w, polls[1..]));
      FiltersDistribute([ReceiveCall(w.input)], it[1..]);
      if polls[0].receive.Received? {
        BatchHandlesAllAndDeletesSucceeded(w.config, polls[0].receive.deliveries);
      }
      assert it == [ReceiveCall(w.input)] + it[1..];
      assert polls[..FirstCancel(polls)][1..] == polls[1..][..FirstCancel(polls[1..])];
    }
  }

  /** Every receive reuses the worker's request; every delete goes to the configured queue. */
  lemma {:induction false} CallsUseConfiguration(w: Worker, polls: seq<Poll>)
    ensures forall c :: c in ConsumeCalls(w, polls) && c.ReceiveCall? ==> c.input == w.input
    ensures forall c :: c in ConsumeCalls(w, polls) && c.DeleteCall? ==> c.delete.queueUrl == w.config.queueUrl
    ensures forall c :: c in ConsumeCalls(w, polls) && c.HandlerCall? ==>
      c.region == w.config.region && c.tableName == w.config.tableName
  {
    if polls != [] && !polls[0].cancelled {
      CallsUseConfiguration(w, polls[1..]);
      if polls[0].receive.Received? {
        BatchUsesConfiguration(w.config, polls[0].receive.deliveries);
      }
    }
  }

  lemma {:induction false} BatchUsesConfiguration(cfg: Config, ds: seq<Delivery>)
    ensures forall c :: c in BatchCalls(cfg, ds) ==> !c.ReceiveCall?
    ensures forall c :: c in BatchCalls(cfg, ds) && c.DeleteCall? ==> c.delete.queueUrl == cfg.queueUrl
    ensures forall c :: c in BatchCalls(cfg, ds) && c.HandlerCall? ==> c.region == cfg.region && c.tableName == cfg.tableName
  {
    if ds != [] {
      BatchUsesConfiguration(cfg, ds[1..]);
    }
  }
}
