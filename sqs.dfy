/**
 * SqsClient.SendEntityMessages: publish an entity's messages in batches of at
 * most ten. The SendMessageBatch call is an oracle: respond(b) is the answer
 * to the b-th call.
 */
module Sqs {
  import opened Wrappers
  import opened Process
  import Decimal
  import Entity

  /** The SQS maximum number of entries in one SendMessageBatch call. */
  const BatchSize: nat := 10

  datatype MessageAttributeValue = MessageAttributeValue(stringValue: string, dataType: string)

  datatype SendMessageBatchRequestEntry = SendMessageBatchRequestEntry(
    id: string,
    messageAttributes: map<string, MessageAttributeValue>,
    messageBody: string)

  datatype SendMessageBatchInput = SendMessageBatchInput(queueUrl: string, entries: seq<SendMessageBatchRequestEntry>)

  /** A failed entry of a SendMessageBatch result; Id and Code are always set, Message may be nil. */
  datatype BatchResultErrorEntry = BatchResultErrorEntry(id: string, code: string, message: Option<string>)

  /** TransportError: the call itself failed. SendOutput: it returned, maybe listing failed entries. */
  datatype SendResponse = TransportError | SendOutput(failed: seq<BatchResultErrorEntry>)

  /** Logging a failed entry dereferences its Message, which panics when it is nil. */
  predicate PanicsOnLog(r: SendResponse) {
    r.SendOutput? && exists j :: 0 <= j < |r.failed| && r.failed[j].message.None?
  }

  /** Whether the response lets the loop go on to the next batch. */
  predicate Continues(r: SendResponse) {
    r.SendOutput? && !PanicsOnLog(r)
  }

  /** The client's queue URL; the AWS client itself is the respond oracle. */
  datatype SqsClient = SqsClient(queueUrl: string)

  /** The entry for the message at global index k. */
  function EntryFor(e: Entity.Entity, k: nat): SendMessageBatchRequestEntry
    requires k < |e.messages|
  {
    SendMessageBatchRequestEntry(
      "msg" + Decimal.Format(k),
      map["entity_id" := MessageAttributeValue(e.id, "String"),
          "message_id" := MessageAttributeValue(Decimal.Format(k + 1), "String")],
      e.messages[k])
  }

  function Min(a: int, b: int): int {
    if a <= b then a else b
  }

  /** The batch that starts at message index i. */
  function BatchAt(queueUrl: string, e: Entity.Entity, i: nat): SendMessageBatchInput
    requires i < e.messageCount <= |e.messages|
  {
    var n := Min(BatchSize, e.messageCount - i);
    SendMessageBatchInput(queueUrl, seq(n, j requires 0 <= j < n => EntryFor(e, i + j)))
  }

  /** The batches for the messages from index i on, in order. */
  function BatchesFrom(queueUrl: string, e: Entity.Entity, i: nat): seq<SendMessageBatchInput>
    requires e.messageCount <= |e.messages|
    decreases e.messageCount - i
  {
    if i >= e.messageCount then [] else [BatchAt(queueUrl, e, i)] + BatchesFrom(queueUrl, e, i + BatchSize)
  }

  /** Every batch SendEntityMessages would send if no call failed. */
  function Batches(queueUrl: string, e: Entity.Entity): seq<SendMessageBatchInput>
    requires e.messageCount <= |e.messages|
  {
    BatchesFrom(queueUrl, e, 0)
  }

  /** Entries for message indexes i, i + 1, ... up to the batch's end make up the batch at i. */
  lemma BatchAtFromEntries(queueUrl: string, e: Entity.Entity, i: nat, entries: seq<SendMessageBatchRequestEntry>)
    requires i < e.messageCount <= |e.messages|
    requires |entries| == Min(BatchSize, e.messageCount - i)
    requires forall k :: 0 <= k < |entries| ==> entries[k] == EntryFor(e, i + k)
    ensures entries == BatchAt(queueUrl, e, i).entries
  {
  }

  /**
   * The inner loop of SendEntityMessages: one entry per message of
   * messages[i:end], counter running on from i + 1.
   */
  method ChunkEntries(e: Entity.Entity, messages: seq<string>, i: nat, end: nat, counter0: int)
    returns (entries: seq<SendMessageBatchRequestEntry>, counter: int)
    requires messages == e.messages && i <= end <= |messages|
    requires counter0 == i + 1
    ensures |entries| == end - i && counter == end + 1
    ensures forall k :: 0 <= k < |entries| ==> entries[k] == EntryFor(e, i + k)
  {
    counter := counter0;
    entries := [];
    var chunk := messages[i..end];
    for j := 0 to |chunk|
      invariant counter == i + j + 1
      invariant |entries| == j
      invariant forall k :: 0 <= k < j ==> entries[k] == EntryFor(e, i + k)
    {
      entries := entries + [SendMessageBatchRequestEntry(
        "msg" + Decimal.Format(i + j),
        map["entity_id" := MessageAttributeValue(e.GetId(), "String"),
            "message_id" := MessageAttributeValue(Decimal.Format(counter), "String")],
        chunk[j])];
      counter := counter + 1;
    }
  }

  /** One batch of SendEntityMessages, seen from the batches sent before it. */
  lemma SendStep(queueUrl: string, e: Entity.Entity, sent: seq<SendMessageBatchInput>, i: nat, input: SendMessageBatchInput)
    requires i < e.messageCount <= |e.messages|
    requires sent + BatchesFrom(queueUrl, e, i) == Batches(queueUrl, e)
    requires input == BatchAt(queueUrl, e, i)
    ensures (sent + [input]) + BatchesFrom(queueUrl, e, i + BatchSize) == Batches(queueUrl, e)
    ensures |sent + [input]| <= |Batches(queueUrl, e)|
    ensures sent + [input] == Batches(queueUrl, e)[..|sent| + 1]
  {
    var rest := BatchesFrom(queueUrl, e, i + BatchSize);
    assert BatchesFrom(queueUrl, e, i) == [input] + rest;
    assert sent + ([input] + rest) == (sent + [input]) + rest;
  }

  /**
   * The loop that logs the failed entries of a response: it panics at the
   * first entry whose Message is nil.
   */
  method LogFailures(failed: seq<BatchResultErrorEntry>) returns (panicked: bool)
    ensures panicked <==> exists j :: 0 <= j < |failed| && failed[j].message.None?
  {
    for j := 0 to |failed|
      invariant forall k :: 0 <= k < j ==> failed[k].message.Some?
    {
      if failed[j].message.None? {
        return true;
      }
    }
    return false;
  }

  /**
   * SendEntityMessages: the batches it sends are a prefix of Batches; it
   * returns nil after sending all of them when every call goes on; it halts
   * right after the first call that has a transport error, and crashes right
   * after the first call whose failed entries include one without a Message.
   */
  method SendEntityMessages(client: SqsClient, e: Entity.Entity, respond: nat -> SendResponse)
    returns (sent: seq<SendMessageBatchInput>, outcome: Outcome)
    requires e.messageCount <= |e.messages|
    ensures |sent| <= |Batches(client.queueUrl, e)| && sent == Batches(client.queueUrl, e)[..|sent|]
    ensures outcome == ReturnedNil ==> sent == Batches(client.queueUrl, e)
    ensures outcome != ReturnedNil ==> |sent| > 0
    ensures forall b :: 0 <= b < |sent| ==> (respond(b).TransportError? <==> outcome == Halted && b == |sent| - 1)
    ensures forall b :: 0 <= b < |sent| ==> (PanicsOnLog(respond(b)) <==> outcome == Crashed && b == |sent| - 1)
  {
    ghost var all := Batches(client.queueUrl, e);
    var messages := e.GetMessages();
    var counter := 1;
    var i := 0;
    sent := [];
    while i < e.GetMessageCount()
      invariant i == BatchSize * |sent|
      invariant i < e.messageCount ==> counter == i + 1
      invariant sent + BatchesFrom(client.queueUrl, e, i) == all
      invariant forall b :: 0 <= b < |sent| ==> Continues(respond(b))
      decreases e.messageCount - i
    {
      var end := i + BatchSize;
      if end > e.GetMessageCount() {
        end := e.GetMessageCount();
      }
      var entries;
      entries, counter := ChunkEntries(e, messages, i, end, counter);
      var input := SendMessageBatchInput(client.queueUrl, entries);
      BatchAtFromEntries(client.queueUrl, e, i, entries);
      SendStep(client.queueUrl, e, sent, i, input);
      sent := sent + [input];
      var response := respond(|sent| - 1);
      if response.TransportError? {
        return sent, Halted;
      }
      if |response.failed| > 0 {
        var panicked := LogFailures(response.failed);
        if panicked {
          return sent, Crashed;
        }
      }
      i := i + BatchSize;
    }
    outcome := ReturnedNil;
  }

  /** All entries of a list of batches, in order. */
  function AllEntries(batches: seq<SendMessageBatchInput>): seq<SendMessageBatchRequestEntry> {
    if batches == [] then [] else batches[0].entries + AllEntries(batches[1..])
  }

  function Bodies(entries: seq<SendMessageBatchRequestEntry>): (r: seq<string>)
    ensures |r| == |entries| && forall k :: 0 <= k < |r| ==> r[k] == entries[k].messageBody
  {
    if entries == [] then [] else [entries[0].messageBody] + Bodies(entries[1..])
  }

  /** The batches from index i on hold, in order, the entries for messages i up to the count. */
  lemma {:induction false} EntriesFrom(queueUrl: string, e: Entity.Entity, i: nat)
    requires e.messageCount <= |e.messages|
    ensures |AllEntries(BatchesFrom(queueUrl, e, i))| == if i >= e.messageCount then 0 else e.messageCount - i
    ensures forall k :: 0 <= k < |AllEntries(BatchesFrom(queueUrl, e, i))| ==>
      AllEntries(BatchesFrom(queueUrl, e, i))[k] == EntryFor(e, i + k)
    decreases e.messageCount - i
  {
    if i < e.messageCount {
      var first := BatchAt(queueUrl, e, i);
      var rest := BatchesFrom(queueUrl, e, i + BatchSize);
      assert BatchesFrom(queueUrl, e, i) == [first] + rest;
      assert ([first] + rest)[1..] == rest;
      EntriesFrom(queueUrl, e, i + BatchSize);
    }
  }

  /**
   * The batches partition the messages: their bodies, concatenated, are
   * messages[0:count] in order.
   */
  lemma BatchesPartitionMessages(queueUrl: string, e: Entity.Entity)
    requires 0 <= e.messageCount <= |e.messages|
    ensures Bodies(AllEntries(Batches(queueUrl, e))) == e.messages[..e.messageCount]
  {
    EntriesFrom(queueUrl, e, 0);
  }

  /** ceil(count/10) batches, none when there are no messages; each holds 1 to 10 entries. */
  lemma {:induction false} BatchShape(queueUrl: string, e: Entity.Entity, i: nat)
    requires e.messageCount <= |e.messages|
    ensures |BatchesFrom(queueUrl, e, i)| == if i >= e.messageCount then 0 else (e.messageCount - i + BatchSize - 1) / BatchSize
    ensures forall b :: 0 <= b < |BatchesFrom(queueUrl, e, i)| ==>
      0 < |BatchesFrom(queueUrl, e, i)[b].entries| <= BatchSize
    ensures forall b :: 0 <= b < |BatchesFrom(queueUrl, e, i)| ==> BatchesFrom(queueUrl, e, i)[b].queueUrl == queueUrl
    decreases e.messageCount - i
  {
    if i < e.messageCount {
      BatchShape(queueUrl, e, i + BatchSize);
    }
  }

  lemma BatchCount(queueUrl: string, e: Entity.Entity)
    requires e.messageCount <= |e.messages|
    ensures |Batches(queueUrl, e)| == if e.messageCount <= 0 then 0 else (e.messageCount + 9) / 10
    ensures forall b :: 0 <= b < |Batches(queueUrl, e)| ==> 0 < |Batches(queueUrl, e)[b].entries| <= 10
  {
    BatchShape(queueUrl, e, 0);
  }

  /** The k-th entry of the batches starting at i sits at entry k % 10 of batch k / 10. */
  lemma {:induction false} EntryPosition(queueUrl: string, e: Entity.Entity, i: nat, k: nat)
    requires e.messageCount <= |e.messages| && i + k < e.messageCount
    ensures k / BatchSize < |BatchesFrom(queueUrl, e, i)|
    ensures k % BatchSize < |BatchesFrom(queueUrl, e, i)[k / BatchSize].entries|
    ensures BatchesFrom(queueUrl, e, i)[k / BatchSize].entries[k % BatchSize] == EntryFor(e, i + k)
    decreases k
  {
    var all := BatchesFrom(queueUrl, e, i);
    assert all == [BatchAt(queueUrl, e, i)] + BatchesFrom(queueUrl, e, i + BatchSize);
    if k >= BatchSize {
      assert k / BatchSize == (k - BatchSize) / BatchSize + 1 && k % BatchSize == (k - BatchSize) % BatchSize;
      EntryPosition(queueUrl, e, i + BatchSize, k - BatchSize);
      assert all[k / BatchSize] == BatchesFrom(queueUrl, e, i + BatchSize)[(k - BatchSize) / BatchSize];
    } else {
      assert k / BatchSize == 0 && k % BatchSize == k;
    }
  }

  /**
   * The message at global index k goes out in batch k / 10 with Id "msg<k>",
   * its message_id attribute is k + 1, its entity_id attribute the entity's id.
   */
  lemma EntryForGlobalIndex(queueUrl: string, e: Entity.Entity, k: nat)
    requires e.messageCount <= |e.messages| && k < e.messageCount
    ensures k / 10 < |Batches(queueUrl, e)| && k % 10 < |Batches(queueUrl, e)[k / 10].entries|
    ensures var entry := Batches(queueUrl, e)[k / 10].entries[k % 10];
      && entry.id == "msg" + Decimal.Format(k)
      && entry.messageBody == e.messages[k]
      && entry.messageAttributes.Keys == {"entity_id", "message_id"}
      && entry.messageAttributes["entity_id"] == MessageAttributeValue(e.id, "String")
      && entry.messageAttributes["message_id"] == MessageAttributeValue(Decimal.Format(k + 1), "String")
  {
    EntryPosition(queueUrl, e, 0, k);
  }

  /** Batch b of the batches starting at i is the batch that starts at i + 10 * b. */
  lemma {:induction false} BatchIndex(queueUrl: string, e: Entity.Entity, i: nat, b: nat)
    requires e.messageCount <= |e.messages| && b < |BatchesFrom(queueUrl, e, i)|
    ensures i + BatchSize * b < e.messageCount
    ensures BatchesFrom(queueUrl, e, i)[b] == BatchAt(queueUrl, e, i + BatchSize * b)
    decreases b
  {
    if b > 0 {
      assert BatchesFrom(queueUrl, e, i)[b] == BatchesFrom(queueUrl, e, i + BatchSize)[b - 1];
      BatchIndex(queueUrl, e, i + BatchSize, b - 1);
    }
  }

  /** Entry Ids are distinct within every batch, as SendMessageBatch demands. */
  lemma EntryIdsDistinct(queueUrl: string, e: Entity.Entity, b: nat, j1: nat, j2: nat)
    requires e.messageCount <= |e.messages| && b < |Batches(queueUrl, e)|
    requires j1 < j2 < |Batches(queueUrl, e)[b].entries|
    ensures Batches(queueUrl, e)[b].entries[j1].id != Batches(queueUrl, e)[b].entries[j2].id
  {
    BatchIndex(queueUrl, e, 0, b);
    var k1, k2 := BatchSize * b + j1, BatchSize * b + j2;
    var id1, id2 := "msg" + Decimal.Format(k1), "msg" + Decimal.Format(k2);
    var batch := BatchAt(queueUrl, e, BatchSize * b);
    assert batch.entries[j1] == EntryFor(e, k1) && batch.entries[j2] == EntryFor(e, k2);
    assert id1[3..] == Decimal.Format(k1) && id2[3..] == Decimal.Format(k2);
    Decimal.FormatInjective(k1, k2);
  }
}
