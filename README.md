# aws-queue-tasks-consume, modelled in Dafny

The program migrates entities through AWS. A producer makes entities with
random ids and numbered messages, and records each id in a process-wide
tracker. It publishes each entity's messages to an SQS queue with
SendMessageBatch, in batches of ten. A pool of SQS workers receives the
messages, hands each to a handler and deletes the ones the handler accepted.
A Kinesis consumer lists the shards of a DynamoDB change stream and runs one
task per shard. Each task follows its shard iterator and hands every record
to the migration tracker handler. When a record says an entity has 0
messages left, the handler drops the entity from the tracker. Once the
tracker is empty, the process sends itself SIGINT.

The model has one module per source file, plus four support modules:

- `Entity` (entity.go):
  - the tracker, a class whose `ids` set stands for the package-level map;
  - `RandSeq` and `NewEntity`, whose `math/rand` draws are parameters;
  - the `Entity` record and its getters.
- `MigrationTracker` (migration_tracker.go):
  - the decoded change record;
  - `Decide`, the handler's decision as a function;
  - `MigrationTrackerHandler`, a method over the shared tracker, proved to follow `Decide`.
- `Sqs` (sqs.go): `SendEntityMessages`.
  - The answer to the b-th SendMessageBatch call is `respond(b)`.
  - The batches it sends are proved to be a prefix of `Batches`, a reference definition.
  - Lemmas about `Batches`: the messages are split in order, there are ceil(count/10) batches of 1 to 10 entries, and entry ids and attributes are fixed.
- `SqsConsumer` (consumer.go): `NewWorker`, `start` and the `consume` loop.
  - The `consume` loop runs over a script of polls. Each poll records whether the context was already cancelled and what ReceiveMessage answered. Each delivered message records whether its handler and its delete failed.
  - A worker's life is the sequence of calls it makes.
- `Kinesis` (kinesis.go): `getShardIds`, `processRecords`, `processShard` and `Start`, all over scripted answers.
  - DescribeStream answers come as a list of pages.
  - Each GetRecords step gives the context state and the answer.
- `Decimal`: Go's `%d` / `strconv.Itoa` formatting of naturals and `strconv.Atoi` parsing.
- `Sync`: the counter of a `sync.WaitGroup`.
- `Process`: how a call ends for the process (returned nil, `log.Fatalf`, panic).
- `Wrappers`: `Option`.

## How the source is modelled

- **Failures.** `log.Fatalf` is the outcome `Halted` and a runtime panic the outcome `Crashed` (module `Process`). The process ends there.
- **The empty-page panic.** `getShardIds` indexes the last shard of a page whose `HasMoreShards` is true. When that page lists no shards, Go panics with an index out of range. The model's outcomes for this are `Kinesis.Listing.Crashed` from the listing and `Kinesis.StartResult.StartCrashed` from `Start`.
- **The endless loops.** The `for { select ... }` loops of `consume` and `processShard`, and the `for` loop of `getShardIds`, run over a finite script.
  - A run that uses up its script is reported as still running: `stopped == false`, the end `Running(iterator)`, or the listing `Unfinished` (and `StillListing` from `Start`). The source's `getShardIds` has no bound: it keeps asking as long as DescribeStream answers a non-empty page with HasMoreShards set.
  - A cancelled context is seen at the top of an iteration, as the `select` sees it.
- **Calls to AWS and the handlers.** These are oracles: the script entries, a `respond` function, and an abstract `handler` function. A handler call always returns in the model; a handler that ends the process, as `MigrationTrackerHandler` does on a record that does not decode or decodes to null, ends the shard task's trace at that record.
- **The Kinesis handler's error.** It is ignored, as in the source.
- **The alphabet.** `Letters` is built from the two character ranges; `LettersAreAsciiLetters` proves it equal to the literal of entity.go:12.
- **The SIGINT rule.** The interrupt is raised after every parsed record while the tracker is empty (migration_tracker.go:80-85), including records whose count is not 0. It is not a one-time event: `NegativeCountScenario` shows that an empty tracker sends it again.
- **Unparsable records.** A record that does not decode halts the process. Data that decodes to a JSON `null` leaves a nil record, which the next log line dereferences; that is the outcome `Crashed`. A record whose count does not parse is skipped, and nil is returned.
- **Failed batch entries.** The failed entries of a SendMessageBatch result are only logged. Logging dereferences each entry's Message, which SQS may leave nil; such an entry makes the sender panic, the outcome `Crashed`.

## Model

| member | source | states |
|---|---|---|
| Decimal.Format | internal/services/entity/entity.go:47 | the `%d` text of a natural is a non-empty digit string with no leading zero |
| Decimal.FormatValue | internal/services/aws/sqs/sqs.go:57-60 | the digits of the formatted number denote that number |
| Decimal.FormatInjective | internal/services/aws/sqs/sqs.go:57 | distinct numbers format to distinct texts |
| Decimal.Atoi | internal/services/worker/migration_tracker.go:66 | `strconv.Atoi` gives a value in the int64 range, and only when the text is a sign and digits |
| Decimal.AtoiFormat | internal/services/worker/migration_tracker.go:66 | Atoi reads back every formatted int64 natural |
| Decimal.AtoiNegated | internal/services/worker/migration_tracker.go:66-74 | Atoi reads `-` followed by a formatted natural as its negation |
| Decimal.AtoiZero | internal/services/worker/migration_tracker.go:66-74 | Atoi gives 0 exactly when the digits after an optional sign are all zeros |
| Entity.LettersAreAsciiLetters | internal/services/entity/entity.go:12 | the alphabet is exactly `a`…`z` followed by `A`…`Z`: 52 distinct ASCII letters in that order |
| Entity.RandSeq | internal/services/entity/entity.go:14-20 | n characters, the i-th being the letter the i-th draw selects, all ASCII letters |
| Entity.Tracker.constructor | internal/services/entity/entity.go:9 | the tracker starts empty |
| Entity.Tracker.AddEntity | internal/services/entity/entity.go:28-30 | the id becomes a member, and the count grows by one only if it was absent |
| Entity.Tracker.RemoveEntity | internal/services/entity/entity.go:32-34 | the id is absent afterwards, and removing an absent id changes nothing |
| Entity.Tracker.GetEntityCount | internal/services/entity/entity.go:36-38 | the number of distinct tracked ids |
| Entity.AddThenRemove | internal/services/entity/entity.go:28-38 | adding an absent id and then removing it restores the set and the count, and no other id is affected |
| Entity.Tracker.AddThenRemoveRestores | internal/services/entity/entity.go:28-34 | calling AddEntity and then RemoveEntity on a tracker with an absent id leaves its set and count as they were |
| Entity.Entity.GetId | internal/services/entity/entity.go:57-59 | the entity's id, unchanged |
| Entity.Entity.GetMessageCount | internal/services/entity/entity.go:61-63 | the entity's message count, unchanged |
| Entity.Entity.GetMessages | internal/services/entity/entity.go:65-67 | the entity's messages, unchanged |
| Entity.NewEntity | internal/services/entity/entity.go:40-55 | a 30-letter id from the draws, a count in [0, maxMessages), and exactly that many messages with message i numbered i |
| MigrationTracker.Decide | internal/services/worker/migration_tracker.go:53-89 | an undecodable record halts the process; a null record panics; both touch nothing; an unparsable count changes nothing; a count of 0 removes exactly the new image's id; other counts remove nothing; after a parse, SIGINT is sent iff the tracker is empty |
| MigrationTracker.Interrupts.Raise | internal/services/worker/migration_tracker.go:84 | one more SIGINT sent |
| MigrationTracker.MigrationTrackerHandler | internal/services/worker/migration_tracker.go:53-89 | the outcome, the tracker afterwards and the interrupts sent are those of Decide on the tracker before |
| MigrationTracker.ReadsOnlyNewImage | internal/services/worker/migration_tracker.go:66-80 | two decoded records with the same new image are decided alike, whatever their other fields |
| MigrationTracker.TwoEntityScenario | internal/services/worker/migration_tracker.go:74-85 | completing one of two tracked entities sends nothing; completing the last one empties the tracker and sends SIGINT |
| MigrationTracker.MalformedCountScenario | internal/services/worker/migration_tracker.go:66-71 | a non-numeric count leaves the tracker alone and sends nothing |
| MigrationTracker.NegativeCountScenario | internal/services/worker/migration_tracker.go:74-85 | a count of -1 removes nothing, but still sends SIGINT when the tracker is already empty |
| Sqs.ChunkEntries | internal/services/aws/sqs/sqs.go:54-66 | one entry per message of the chunk, each the entry for its global index, with the counter advanced past the chunk |
| Sqs.LogFailures | internal/services/aws/sqs/sqs.go:82-87 | logging the failed entries panics exactly when one of them has a nil Message |
| Sqs.SendEntityMessages | internal/services/aws/sqs/sqs.go:40-90 | the batches sent are a prefix of Batches; nil is returned after all of them when every call goes on; the process halts right after the first call with a transport error, and crashes right after the first call reporting a failed entry with no Message, and only there |
| Sqs.EntriesFrom | internal/services/aws/sqs/sqs.go:47-66 | the batches from index i hold the entries for messages i up to the count, in order |
| Sqs.BatchesPartitionMessages | internal/services/aws/sqs/sqs.go:47-66 | the bodies of all batches, concatenated, are the entity's messages in order |
| Sqs.BatchShape | internal/services/aws/sqs/sqs.go:42-51 | from index i there are ceil((count - i) / 10) batches, each holding 1 to 10 entries, all for the client's queue |
| Sqs.BatchCount | internal/services/aws/sqs/sqs.go:42-51 | ceil(count / 10) batches in all, none when there are no messages, each holding 1 to 10 entries |
| Sqs.EntryPosition | internal/services/aws/sqs/sqs.go:47-63 | the k-th entry from index i is entry k mod 10 of batch k div 10 |
| Sqs.EntryForGlobalIndex | internal/services/aws/sqs/sqs.go:55-63 | message k goes out in batch k div 10 with Id `msg<k>`, its body, an `entity_id` attribute that is the entity's id and a `message_id` attribute of k + 1, and no other attributes |
| Sqs.BatchIndex | internal/services/aws/sqs/sqs.go:47-51 | batch b is the batch that starts at message 10·b |
| Sqs.EntryIdsDistinct | internal/services/aws/sqs/sqs.go:57 | entry ids are distinct within each batch |
| SqsConsumer.NewWorker | internal/services/aws/sqs/consumer.go:39-64 | the receive request uses the configured queue URL, batch size and wait time, and asks for all message attributes |
| SqsConsumer.HandleBatch | internal/services/aws/sqs/consumer.go:91-105 | the calls made for one received batch are BatchCalls |
| SqsConsumer.Consume | internal/services/aws/sqs/consumer.go:73-108 | the calls are ConsumeCalls of the script, and the worker stops iff some poll sees the cancelled context |
| SqsConsumer.Start | internal/services/aws/sqs/consumer.go:66-71 | workers 0 through NumWorkers-1 are launched (none if NumWorkers ≤ 0), and the wait group grows by one per worker |
| SqsConsumer.FiltersDistribute | internal/services/aws/sqs/consumer.go:84-101 | the handler, delete and receive views of the calls distribute over concatenation |
| SqsConsumer.BatchHandlesAllAndDeletesSucceeded | internal/services/aws/sqs/consumer.go:91-105 | every message is handled once, in order, and deleted with its own receipt handle exactly when its handler succeeded |
| SqsConsumer.DeleteFailuresIgnored | internal/services/aws/sqs/consumer.go:98-104 | which deletes fail does not change the calls of a batch: a failed delete is only logged and the batch goes on |
| SqsConsumer.ReceiveErrorIteration | internal/services/aws/sqs/consumer.go:84-88 | after a receive error, the iteration handles and deletes nothing |
| SqsConsumer.FirstCancel | internal/services/aws/sqs/consumer.go:78-81 | the first poll that sees the cancelled context; none before it does |
| SqsConsumer.CancelEndsWorker | internal/services/aws/sqs/consumer.go:77-81 | one receive per poll before the first cancelled one, and no call after it |
| SqsConsumer.CallsUseConfiguration | internal/services/aws/sqs/consumer.go:84-101 | every receive reuses the worker's request; handler calls get the configured region and table; deletes go to the configured queue |
| SqsConsumer.BatchUsesConfiguration | internal/services/aws/sqs/consumer.go:91-101 | within a batch there are no receives; handler calls and deletes use the configuration |
| Kinesis.KinesisConsumer.constructor | internal/services/aws/kinesis/kinesis.go:44-49 | the consumer keeps its stream name and starts with an empty wait group |
| Kinesis.KinesisConsumer.GetShardIds | internal/services/aws/kinesis/kinesis.go:52-80 | on any script, the answered DescribeStream requests are DescribeRequests of the pages, and the result is ListShards of the pages |
| Kinesis.UnendedListing | internal/services/aws/kinesis/kinesis.go:56-77 | a script without a page that ends the listing leaves it unfinished, one request per page |
| Kinesis.FirstEnd | internal/services/aws/kinesis/kinesis.go:64-76 | the page at which the listing stops; no page before it stops it |
| Kinesis.RequestPerPage | internal/services/aws/kinesis/kinesis.go:56-77 | one DescribeStream request per page up to the ending page; the first request starts nowhere |
| Kinesis.RequestsChain | internal/services/aws/kinesis/kinesis.go:57-62 | on any script, ended or not, every request names the stream; the first uses the given start id (none from getShardIds); each later request starts after the last shard id of the page before, which was non-empty |
| Kinesis.ListingConcatenatesPages | internal/services/aws/kinesis/kinesis.go:64-79 | an error discards all pages; a last page yields every page's ids concatenated in order; an empty page that claims more shards panics |
| Kinesis.KinesisConsumer.ProcessRecords | internal/services/aws/kinesis/kinesis.go:82-91 | every record goes to the handler once, in order; handler errors are ignored, and nil is returned |
| Kinesis.KinesisConsumer.ProcessShard | internal/services/aws/kinesis/kinesis.go:93-155 | a trim-horizon iterator request, then the run ShardTask of the script |
| Kinesis.RunHandsFetchedRecords | internal/services/aws/kinesis/kinesis.go:124-140 | the handler gets exactly the records of the successful GetRecords calls, in order; the k-th call answers the k-th uncancelled step |
| Kinesis.RunFollowsIterators | internal/services/aws/kinesis/kinesis.go:124-143 | the first call uses the initial iterator; the call after a failed call, if any, uses the same iterator; the call after a success, if any, uses NextShardIterator; every limit is 1000 |
| Kinesis.RunStopsOnlyForAReason | internal/services/aws/kinesis/kinesis.go:112-149 | a task still running made one call per step; a cancelled task stopped at a cancelled step right after its calls; a nil iterator stops it only before any call, when the initial iterator is nil; so every uncancelled step with a live iterator makes its call |
| Kinesis.RunClosesOnNilNext | internal/services/aws/kinesis/kinesis.go:143-149 | the task ends as closed iff its last call succeeded with a nil NextShardIterator, and no call follows such a call |
| Kinesis.CancelStopsShard | internal/services/aws/kinesis/kinesis.go:113-116 | a cancelled context at iteration k stops the task before its k-th GetRecords call |
| Kinesis.InitialIteratorError | internal/services/aws/kinesis/kinesis.go:99-107 | a failed GetShardIterator ends the task with no GetRecords call |
| Kinesis.KinesisConsumer.Start | internal/services/aws/kinesis/kinesis.go:157-175 | a listing error is returned and nothing is launched; a panic or an unfinished listing launches nothing; otherwise one shard task per shard id, in order, with the wait group growing by the number of shards |

## Left out

- AWS SDK clients, `config.LoadDefaultConfig` and its error path: the calls are oracle parameters. `NewWorker` and the Kinesis constructor therefore have no error result.
- Goroutines and concurrency are not modelled:
  - Each shard task and each SQS worker is modelled on its own, not interleaved with the others.
  - The unlocked tracker map shared between goroutines is not modelled.
  - `wg.Done` and `wg.Wait` are not modelled. In particular, `Start` in kinesis.go blocks in `wg.Wait` until every shard task ends; the model stops at the launch.
- Context cancellation is represented only by the flags in the scripts. `context.WithCancel`, `Stop`, `StartSqsConsumer` and `StartKinesisStreamProcessor` are not modelled, because they only wire signals to cancellation and waiting.
- `time.Sleep` between and after GetRecords calls: timing has no effect on the calls made.
- Logging and colour output, including the text of the log lines listing the failed entries of a SendMessageBatch response; only the nil-Message panic of that loop is modelled.
- The `workerID` passed to `consume`: it is only logged.
- `json.Unmarshal` is not modelled. The handler receives the decoded record, a nil record for JSON `null`, or a decoding error. The record's untyped `userIdentity` field is not modelled.
- `math/rand`: the draws are parameters. Entity.RandSeq requires `n ≥ 0`, because `make` panics on a negative length. Entity.NewEntity requires `maxMessages > 0`, because `Intn` panics otherwise.
- Sqs.SendEntityMessages requires `messageCount ≤ len(messages)`. Every entity built by `NewEntity` meets this. Slicing a message list shorter than the count, into spare capacity or past it, is not modelled.
- A nil `HasMoreShards` pointer, which Go would dereference and panic on, is not modelled.
- dynamodb.go, entity_producer.go, entity_consumer.go and the `cmd` programs, which wire the core together, are not part of this model.
