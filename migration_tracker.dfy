/**
 * The completion handler plugged into the shard consumer: it reads one change
 * record of the entity table and, when an entity's remaining message count is
 * exactly 0, removes the entity from the tracker; when the tracker is then
 * empty, the process sends itself an interrupt.
 */
module MigrationTracker {
  import opened Wrappers
  import Decimal
  import Entity
  import opened Process

  /** The parts of a DynamoDB stream image the record type names. */
  datatype Image = Image(messageCountN: string, entityIdS: string)

  datatype Keys = Keys(entityIdS: string)

  datatype StreamRecord = StreamRecord(
    approximateCreationDateTime: int,
    keys: Keys,
    newImage: Image,
    oldImage: Image,
    sizeBytes: int,
    approximateCreationDateTimePrecision: string)

  /** The decoded change record (its untyped userIdentity field is not modelled). */
  datatype DynamoDBRecord = DynamoDBRecord(
    awsRegion: string,
    eventId: string,
    eventName: string,
    recordFormat: string,
    tableName: string,
    dynamodb: StreamRecord,
    eventSource: string)

  /**
   * What json.Unmarshal leaves in the record pointer: an error, a nil
   * pointer (the data was the JSON text null), or the decoded record.
   */
  datatype Decoding = UnmarshalError | NullRecord | Decoded(value: DynamoDBRecord)

  /** What one call does: its outcome, the tracker afterwards, and whether it sent SIGINT. */
  datatype Effect = Effect(outcome: Outcome, tracked: set<string>, interrupt: bool)

  /** NewImage.message_count.N as strconv.Atoi reads it; None is Atoi's error. */
  function RemainingCount(r: DynamoDBRecord): Option<int> {
    Decimal.Atoi(r.dynamodb.newImage.messageCountN)
  }

  /** NewImage.entity_id.S, the id a completed record removes. */
  function CompletedId(r: DynamoDBRecord): string {
    r.dynamodb.newImage.entityIdS
  }

  /** The handler's decision on one record, from what decoding its data gave. */
  function Decide(decoded: Decoding, tracked: set<string>): (e: Effect)
    // A record that does not unmarshal halts the process and touches nothing.
    ensures decoded.UnmarshalError? ==> e == Effect(Halted, tracked, false)
    // A null record is dereferenced when it is logged, and the handler panics.
    ensures decoded.NullRecord? ==> e == Effect(Crashed, tracked, false)
    // Every other path returns nil.
    ensures decoded.Decoded? ==> e.outcome == ReturnedNil
    // The handler never adds an id, and removes at most the new image's id.
    ensures e.tracked <= tracked
    ensures decoded.Decoded? ==> tracked - {CompletedId(decoded.value)} <= e.tracked
    // An unparsable count: nothing removed, no shutdown check.
    ensures decoded.Decoded? && RemainingCount(decoded.value).None? ==> e.tracked == tracked && !e.interrupt
    // A count of exactly 0 removes the new image's entity id...
    ensures decoded.Decoded? && RemainingCount(decoded.value) == Some(0) ==>
      e.tracked == tracked - {CompletedId(decoded.value)}
    // ...and any other count, negative ones included, removes nothing.
    ensures decoded.Decoded? && RemainingCount(decoded.value).Some? && RemainingCount(decoded.value) != Some(0) ==>
      e.tracked == tracked
    // After a successful parse, SIGINT is sent exactly when the tracker is empty.
    ensures decoded.Decoded? && RemainingCount(decoded.value).Some? ==> (e.interrupt <==> e.tracked == {})
  {
    match decoded
    case UnmarshalError => Effect(Halted, tracked, false)
    case NullRecord => Effect(Crashed, tracked, false)
    case Decoded(record) =>
      match RemainingCount(record)
      case None => Effect(ReturnedNil, tracked, false)
      case Some(count) =>
        var after := if count == 0 then tracked - {CompletedId(record)} else tracked;
        Effect(ReturnedNil, after, |after| == 0)
  }

  /** The interrupts the process has sent itself with syscall.Kill(Getpid(), SIGINT). */
  class Interrupts {
    var sent: nat

    constructor ()
      ensures sent == 0
    {
      sent := 0;
    }

    method Raise()
      modifies this
      ensures sent == old(sent) + 1
    {
      sent := sent + 1;
    }
  }

  /** MigrationTrackerHandler over the shared tracker, proved to follow Decide. */
  method MigrationTrackerHandler(decoded: Decoding, tracker: Entity.Tracker, signals: Interrupts)
    returns (outcome: Outcome)
    modifies tracker, signals
    ensures outcome == Decide(decoded, old(tracker.ids)).outcome
    ensures tracker.ids == Decide(decoded, old(tracker.ids)).tracked
    ensures signals.sent == old(signals.sent) + (if Decide(decoded, old(tracker.ids)).interrupt then 1 else 0)
  {
    if decoded.UnmarshalError? {
      return Halted;
    }
    if decoded.NullRecord? {
      return Crashed;
    }
    var image := decoded.value.dynamodb.newImage;
    var messageCount := Decimal.Atoi(image.messageCountN);
    if messageCount.None? {
      return ReturnedNil;
    }
    if messageCount.value == 0 {
      tracker.RemoveEntity(image.entityIdS);
    }
    var n := tracker.GetEntityCount();
    if n == 0 {
      signals.Raise();
    }
    return ReturnedNil;
  }

  /** The decision reads only the new image: records that agree on it are decided alike. */
  lemma ReadsOnlyNewImage(r: DynamoDBRecord, r': DynamoDBRecord, tracked: set<string>)
    requires r.dynamodb.newImage == r'.dynamodb.newImage
    ensures Decide(Decoded(r), tracked) == Decide(Decoded(r'), tracked)
  {
  }

  /** A record whose new image says that entity id has count n remaining. */
  function CompletionRecord(id: string, n: string): DynamoDBRecord {
    DynamoDBRecord("", "", "MODIFY", "", "", StreamRecord(0, Keys(id), Image(n, id), Image("1", id), 0, ""), "")
  }

  /**
   * With {a, b} tracked, completing a leaves {b} and sends nothing;
   * completing b then empties the tracker and sends SIGINT.
   */
  lemma TwoEntityScenario(a: string, b: string)
    requires a != b
    ensures Decide(Decoded(CompletionRecord(a, "0")), {a, b}) == Effect(ReturnedNil, {b}, false)
    ensures Decide(Decoded(CompletionRecord(b, "0")), {b}) == Effect(ReturnedNil, {}, true)
  {
    Decimal.AtoiFormat(0);
    assert Decimal.Format(0) == "0";
    assert {a, b} - {a} == {b};
  }

  /** A non-numeric count skips the record: the tracker is kept and nothing is sent. */
  lemma MalformedCountScenario(tracked: set<string>, id: string)
    ensures Decide(Decoded(CompletionRecord(id, "abc")), tracked) == Effect(ReturnedNil, tracked, false)
  {
    assert !Decimal.IsDigit("abc"[0]);
  }

  /**
   * "-1" parses to a nonzero count: nothing is removed, yet an already empty
   * tracker makes every such record send SIGINT again.
   */
  lemma NegativeCountScenario(id: string)
    ensures Decide(Decoded(CompletionRecord(id, "-1")), {id}) == Effect(ReturnedNil, {id}, false)
    ensures Decide(Decoded(CompletionRecord(id, "-1")), {}) == Effect(ReturnedNil, {}, true)
  {
    Decimal.AtoiNegated(1);
    assert "-" + Decimal.Format(1) == "-1";
  }
}
