/**
 * The Kinesis shard consumer of kinesis.go: shard discovery by paginated
 * DescribeStream calls, and one task per shard that follows the shard
 * iterator and hands every fetched record to the handler. DescribeStream,
 * GetShardIterator and GetRecords are scripted responses; the handler is an
 * abstract function from a record to "returned an error".
 */
module Kinesis {
  import opened Wrappers
  import Sync

  datatype Record = Record(data: seq<bv8>, partitionKey: string, sequenceNumber: string)

  datatype DescribeStreamInput = DescribeStreamInput(streamName: string, exclusiveStartShardId: Option<string>)

  /** A DescribeStream answer: an error, or one page of shard ids and the HasMoreShards flag. */
  datatype DescribeResponse = DescribeError | DescribePage(shardIds: seq<string>, hasMoreShards: bool)

  /**
   * The pages after which getShardIds asks no more: an error, the last page,
   * or a page claiming more shards while listing none (indexing its last
   * shard then panics).
   */
  predicate EndsListing(r: DescribeResponse) {
    r.DescribeError? || !r.hasMoreShards || r.shardIds == []
  }

  /** The script holds a page that ends the listing. */
  predicate ListingEnds(pages: seq<DescribeResponse>) {
    |pages| > 0 && (EndsListing(pages[0]) || ListingEnds(pages[1..]))
  }

  /**
   * What getShardIds produces: the shard ids, its error, or a panic;
   * Unfinished when the script ran out with the listing still going, as the
   * source loop has no bound of its own.
   */
  datatype Listing = ShardIds(ids: seq<string>) | ListError | Crashed | Unfinished

  /** The result of getShardIds over the remaining pages, the ids of earlier pages being acc. */
  function ListShardsFrom(pages: seq<DescribeResponse>, acc: seq<string>): Listing {
    if pages == [] then Unfinished
    else if pages[0].DescribeError? then ListError
    else if !pages[0].hasMoreShards then ShardIds(acc + pages[0].shardIds)
    else if pages[0].shardIds == [] then Crashed
    else ListShardsFrom(pages[1..], acc + pages[0].shardIds)
  }

  /** The result of getShardIds. */
  function ListShards(pages: seq<DescribeResponse>): Listing {
    ListShardsFrom(pages, [])
  }

  /** The last shard id of a page. */
  function LastShardId(p: DescribeResponse): string
    requires p.DescribePage? && |p.shardIds| > 0
  {
    p.shardIds[|p.shardIds| - 1]
  }

  /** The answered DescribeStream requests getShardIds makes, the first one starting at start. */
  function DescribeRequests(streamName: string, pages: seq<DescribeResponse>, start: Option<string>): seq<DescribeStreamInput> {
    if pages == [] then []
    else
      [DescribeStreamInput(streamName, start)] +
      if EndsListing(pages[0]) then []
      else DescribeRequests(streamName, pages[1..], Some(LastShardId(pages[0])))
  }

  /** The GetRecords request: the current iterator and a limit of 1000 records. */
  datatype GetRecordsInput = GetRecordsInput(shardIterator: string, limit: int)

  const RecordLimit: int := 1000

  datatype GetShardIteratorInput = GetShardIteratorInput(streamName: string, shardId: string, shardIteratorType: string)

  /** The GetShardIterator answer; a successful one may still carry a nil iterator. */
  datatype IteratorResponse = IteratorError | IteratorOutput(shardIterator: Option<string>)

  /** A GetRecords answer: an error, or the records and NextShardIterator (None when the shard is closed). */
  datatype FetchResult = FetchError | Fetched(records: seq<Record>, nextShardIterator: Option<string>)

  /** One iteration of a shard task: the state of the context at its top, and the GetRecords answer. */
  datatype Step = Step(cancelled: bool, fetch: FetchResult)

  /** One GetRecords call and its answer. */
  datatype Fetch = Fetch(input: GetRecordsInput, result: FetchResult)

  /** Why a shard task stopped, or Running when the script ended with the task alive. */
  datatype End = InitialIteratorFailed | Cancelled | IteratorNil | ShardClosed | Running(shardIterator: Option<string>)

  /** A shard task's life: its GetRecords calls, the records handed to the handler, and its end. */
  datatype ShardRun = ShardRun(fetches: seq<Fetch>, handed: seq<Record>, end: End)

  function Prepend(f: Fetch, records: seq<Record>, run: ShardRun): ShardRun {
    ShardRun([f] + run.fetches, records + run.handed, run.end)
  }

  /** A run preceded by the given calls and handed records. */
  function Join(fetches: seq<Fetch>, handed: seq<Record>, run: ShardRun): ShardRun {
    ShardRun(fetches + run.fetches, handed + run.handed, run.end)
  }

  lemma JoinPrepend(fetches: seq<Fetch>, handed: seq<Record>, f: Fetch, records: seq<Record>, run: ShardRun)
    ensures Join(fetches + [f], handed + records, run) == Join(fetches, handed, Prepend(f, records, run))
  {
    assert (fetches + [f]) + run.fetches == fetches + ([f] + run.fetches);
    assert (handed + records) + run.handed == handed + (records + run.handed);
  }

  /** The loop of processShard from the current iterator on over the scripted steps. */
  function Run(current: Option<string>, steps: seq<Step>): ShardRun
    decreases |steps|
  {
    if steps == [] then ShardRun([], [], Running(current))
    else if steps[0].cancelled then ShardRun([], [], Cancelled)
    else if current.None? then ShardRun([], [], IteratorNil)
    else
      var call := Fetch(GetRecordsInput(current.value, RecordLimit), steps[0].fetch);
      match steps[0].fetch
      case FetchError => Prepend(call, [], Run(current, steps[1..]))
      case Fetched(records, next) =>
        if next.None? then ShardRun([call], records, ShardClosed)
        else Prepend(call, records, Run(next, steps[1..]))
  }

  /** processShard: first the trim-horizon iterator, then the loop. */
  function ShardTask(initial: IteratorResponse, steps: seq<Step>): ShardRun {
    if initial.IteratorError? then ShardRun([], [], InitialIteratorFailed) else Run(initial.shardIterator, steps)
  }

  /** The records of the successful GetRecords calls, concatenated in call order. */
  function FetchedRecords(fetches: seq<Fetch>): seq<Record> {
    if fetches == [] then []
    else (if fetches[0].result.Fetched? then fetches[0].result.records else []) + FetchedRecords(fetches[1..])
  }

  /**
   * Over a shard task's life the handler receives exactly the records of the
   * successful fetches, in fetch order; the k-th GetRecords call is the one
   * of the k-th step, none of the steps up to it being cancelled.
   */
  lemma {:induction false} RunHandsFetchedRecords(current: Option<string>, steps: seq<Step>)
    ensures Run(current, steps).handed == FetchedRecords(Run(current, steps).fetches)
    ensures |Run(current, steps).fetches| <= |steps|
    ensures forall k :: 0 <= k < |Run(current, steps).fetches| ==>
      Run(current, steps).fetches[k].result == steps[k].fetch && !steps[k].cancelled
    decreases |steps|
  {
    var r := Run(current, steps);
    if steps != [] && !steps[0].cancelled && current.Some? {
      var rest := Run(if steps[0].fetch.FetchError? then current else steps[0].fetch.nextShardIterator, steps[1..]);
      RunHandsFetchedRecords(if steps[0].fetch.FetchError? then current else steps[0].fetch.nextShardIterator, steps[1..]);
      if steps[0].fetch.FetchError? || steps[0].fetch.nextShardIterator.Some? {
        assert r.fetches[1..] == rest.fetches;
      } else {
        assert r.fetches[1..] == [];
      }
    }
  }

  /**
   * The iterator each GetRecords call uses: the first is the starting
   * iterator; after a failed call the next call reuses the same iterator;
   * after a successful one it uses NextShardIterator, which was not nil.
   * Every call asks for at most 1000 records.
   */
  lemma {:induction false} RunFollowsIterators(current: Option<string>, steps: seq<Step>)
    ensures |Run(current, steps).fetches| > 0 ==> current == Some(Run(current, steps).fetches[0].input.shardIterator)
    ensures forall k :: 0 <= k < |Run(current, steps).fetches| - 1 ==>
      var f, g := Run(current, steps).fetches[k], Run(current, steps).fetches[k + 1];
      (f.result.FetchError? ==> g.input.shardIterator == f.input.shardIterator) &&
      (f.result.Fetched? ==> f.result.nextShardIterator == Some(g.input.shardIterator))
    ensures forall k :: 0 <= k < |Run(current, steps).fetches| ==> Run(current, steps).fetches[k].input.limit == RecordLimit
    decreases |steps|
  {
    if steps != [] && !steps[0].cancelled && current.Some? {
      var next := if steps[0].fetch.FetchError? then current else steps[0].fetch.nextShardIterator;
      RunFollowsIterators(next, steps[1..]);
      if next.Some? {
        assert Run(current, steps).fetches[1..] == Run(next, steps[1..]).fetches;
      }
    }
  }

  /**
   * The task ends as closed exactly when its last GetRecords call succeeded
   * with a nil NextShardIterator; no call follows such a call.
   */
  lemma {:induction false} RunClosesOnNilNext(current: Option<string>, steps: seq<Step>)
    ensures var r := Run(current, steps);
      r.end == ShardClosed <==>
        (|r.fetches| > 0 && r.fetches[|r.fetches| - 1].result.Fetched? &&
         r.fetches[|r.fetches| - 1].result.nextShardIterator.None?)
    ensures forall k :: 0 <= k < |Run(current, steps).fetches| - 1 ==>
      !(Run(current, steps).fetches[k].result.Fetched? && Run(current, steps).fetches[k].result.nextShardIterator.None?)
    decreases |steps|
  {
    if steps != [] && !steps[0].cancelled && current.Some? {
      var next := if steps[0].fetch.FetchError? then current else steps[0].fetch.nextShardIterator;
      RunClosesOnNilNext(next, steps[1..]);
      if next.Some? {
        var r, rest := Run(current, steps), Run(next, steps[1..]);
        assert r.fetches == [r.fetches[0]] + rest.fetches;
        if rest.fetches != [] {
          assert r.fetches[|r.fetches| - 1] == rest.fetches[|rest.fetches| - 1];
        }
      }
    }
  }

  /**
   * The loop stops only for a reason: a task still running made one
   * GetRecords call per step; a cancelled one stopped at a cancelled step
   * right after its calls; a nil iterator can only be the initial one.
   * With RunHandsFetchedRecords and RunFollowsIterators this means every
   * uncancelled step with a live iterator makes its call, so a failed call
   * is retried and a successful one advances to NextShardIterator.
   */
  lemma {:induction false} RunStopsOnlyForAReason(current: Option<string>, steps: seq<Step>)
    ensures var r := Run(current, steps);
      && (r.end.Running? ==> |r.fetches| == |steps|)
      && (r.end == Cancelled ==> |r.fetches| < |steps| && steps[|r.fetches|].cancelled)
      && (r.end == IteratorNil ==> r.fetches == [] && current.None?)
    decreases |steps|
  {
    if steps != [] && !steps[0].cancelled && current.Some? {
      var next := if steps[0].fetch.FetchError? then current else steps[0].fetch.nextShardIterator;
      if next.Some? {
        RunStopsOnlyForAReason(next, steps[1..]);
        var r, rest := Run(current, steps), Run(next, steps[1..]);
        assert r.fetches == [r.fetches[0]] + rest.fetches;
        assert r.end == rest.end;
        if rest.end == Cancelled {
          assert steps[1..][|rest.fetches|] == steps[|r.fetches|];
        }
      }
    }
  }

  /** A cancelled context at the top of iteration k stops the task before a k-th GetRecords call. */
  lemma CancelStopsShard(current: Option<string>, steps: seq<Step>, k: nat)
    requires k < |steps| && steps[k].cancelled
    ensures |Run(current, steps).fetches| <= k
  {
    RunHandsFetchedRecords(current, steps);
  }

  /** An error getting the initial iterator ends the shard task with no GetRecords call. */
  lemma InitialIteratorError(steps: seq<Step>)
    ensures ShardTask(IteratorError, steps) == ShardRun([], [], InitialIteratorFailed)
  {
  }

  /** The index of the page that ends the listing. */
  function FirstEnd(pages: seq<DescribeResponse>): (k: nat)
    requires ListingEnds(pages)
    ensures k < |pages| && EndsListing(pages[k])
    ensures forall j :: 0 <= j < k ==> !EndsListing(pages[j])
  {
    if EndsListing(pages[0]) then 0 else 1 + FirstEnd(pages[1..])
  }

  /** The shard ids of the pages, concatenated in page order. */
  function PageIds(pages: seq<DescribeResponse>): seq<string> {
    if pages == [] then []
    else (if pages[0].DescribePage? then pages[0].shardIds else []) + PageIds(pages[1..])
  }

  /** getShardIds makes one DescribeStream request per page up to the one that ends the listing. */
  lemma {:induction false} RequestPerPage(streamName: string, pages: seq<DescribeResponse>, start: Option<string>)
    requires ListingEnds(pages)
    ensures |DescribeRequests(streamName, pages, start)| == FirstEnd(pages) + 1
    ensures DescribeRequests(streamName, pages, start)[0] == DescribeStreamInput(streamName, start)
  {
    if !EndsListing(pages[0]) {
      RequestPerPage(streamName, pages[1..], Some(LastShardId(pages[0])));
    }
  }

  /**
   * Every DescribeStream request names the stream; the first one has no
   * ExclusiveStartShardId, each later one starts after the last shard id of
   * the page before, which was a non-empty page.
   */
  lemma {:induction false} RequestsChain(streamName: string, pages: seq<DescribeResponse>, start: Option<string>, k: nat)
    requires k < |DescribeRequests(streamName, pages, start)|
    ensures DescribeRequests(streamName, pages, start)[k].streamName == streamName
    ensures k == 0 ==> DescribeRequests(streamName, pages, start)[k].exclusiveStartShardId == start
    ensures k > 0 ==>
      && k - 1 < |pages| && pages[k - 1].DescribePage? && |pages[k - 1].shardIds| > 0
      && DescribeRequests(streamName, pages, start)[k].exclusiveStartShardId == Some(LastShardId(pages[k - 1]))
  {
    if k > 0 {
      var next := Some(LastShardId(pages[0]));
      var rest := DescribeRequests(streamName, pages[1..], next);
      assert DescribeRequests(streamName, pages, start) == [DescribeStreamInput(streamName, start)] + rest;
      RequestsChain(streamName, pages[1..], next, k - 1);
      if k > 1 {
        assert pages[k - 1] == pages[1..][k - 2];
      }
    }
  }

  /**
   * getShardIds returns the concatenation of every page's shard ids, in page
   * order, when the listing ends with a last page; an error on any page
   * discards the pages before it; a page that claims more shards but lists
   * none makes it panic.
   */
  lemma {:induction false} ListingConcatenatesPages(pages: seq<DescribeResponse>, acc: seq<string>)
    requires ListingEnds(pages)
    ensures var last := pages[FirstEnd(pages)];
      && (last.DescribeError? ==> ListShardsFrom(pages, acc) == ListError)
      && (last.DescribePage? && !last.hasMoreShards ==>
            ListShardsFrom(pages, acc) == ShardIds(acc + PageIds(pages[..FirstEnd(pages) + 1])))
      && (last.DescribePage? && last.hasMoreShards ==> ListShardsFrom(pages, acc) == Crashed)
  {
    var e := FirstEnd(pages);
    if EndsListing(pages[0]) {
      assert pages[..1] == [pages[0]];
      assert PageIds(pages[..1]) == (if pages[0].DescribePage? then pages[0].shardIds else []) + PageIds([]);
    } else {
      ListingConcatenatesPages(pages[1..], acc + pages[0].shardIds);
      assert pages[..e + 1][1..] == pages[1..][..e];
      assert acc + pages[0].shardIds + PageIds(pages[1..][..e]) == acc + (pages[0].shardIds + PageIds(pages[1..][..e]));
    }
  }

  /**
   * A script with no page that ends the listing leaves getShardIds still
   * asking: it gives no result, and every page answered one request.
   */
  lemma {:induction false} UnendedListing(streamName: string, pages: seq<DescribeResponse>, start: Option<string>, acc: seq<string>)
    requires !ListingEnds(pages)
    ensures ListShardsFrom(pages, acc) == Unfinished
    ensures |DescribeRequests(streamName, pages, start)| == |pages|
  {
    if pages != [] {
      UnendedListing(streamName, pages[1..], Some(LastShardId(pages[0])), acc + pages[0].shardIds);
    }
  }

  /** One request of getShardIds, seen from the requests and shard ids gathered before it. */
  lemma ListingStep(streamName: string, pages: seq<DescribeResponse>, token: Option<string>,
                    before: seq<DescribeStreamInput>, acc: seq<string>)
    requires pages != []
    ensures EndsListing(pages[0]) ==>
      before + DescribeRequests(streamName, pages, token) == before + [DescribeStreamInput(streamName, token)]
    ensures pages[0].DescribeError? ==> ListShardsFrom(pages, acc) == ListError
    ensures pages[0].DescribePage? && !pages[0].hasMoreShards ==>
      ListShardsFrom(pages, acc) == ShardIds(acc + pages[0].shardIds)
    ensures pages[0].DescribePage? && pages[0].hasMoreShards && pages[0].shardIds == [] ==>
      ListShardsFrom(pages, acc) == Crashed
    ensures !EndsListing(pages[0]) ==>
      && before + DescribeRequests(streamName, pages, token) ==
           (before + [DescribeStreamInput(streamName, token)]) +
           DescribeRequests(streamName, pages[1..], Some(LastShardId(pages[0])))
      && ListShardsFrom(pages, acc) == ListShardsFrom(pages[1..], acc + pages[0].shardIds)
  {
    if EndsListing(pages[0]) {
      assert DescribeRequests(streamName, pages, token) == [DescribeStreamInput(streamName, token)];
    } else {
      var rest := DescribeRequests(streamName, pages[1..], Some(LastShardId(pages[0])));
      assert DescribeRequests(streamName, pages, token) == [DescribeStreamInput(streamName, token)] + rest;
      assert before + ([DescribeStreamInput(streamName, token)] + rest) ==
        (before + [DescribeStreamInput(streamName, token)]) + rest;
    }
  }

  /** One iteration of processShard that makes a GetRecords call, seen from the calls made before it. */
  lemma RunAdvance(fetches: seq<Fetch>, handed: seq<Record>, current: Option<string>, steps: seq<Step>)
    requires steps != [] && !steps[0].cancelled && current.Some?
    ensures var call := Fetch(GetRecordsInput(current.value, RecordLimit), steps[0].fetch);
      var records := if steps[0].fetch.Fetched? then steps[0].fetch.records else [];
      var next := if steps[0].fetch.FetchError? then current else steps[0].fetch.nextShardIterator;
      Join(fetches, handed, Run(current, steps)) ==
        if next.None? then ShardRun(fetches + [call], handed + records, ShardClosed)
        else Join(fetches + [call], handed + records, Run(next, steps[1..]))
  {
    var call := Fetch(GetRecordsInput(current.value, RecordLimit), steps[0].fetch);
    var records := if steps[0].fetch.Fetched? then steps[0].fetch.records else [];
    var next := if steps[0].fetch.FetchError? then current else steps[0].fetch.nextShardIterator;
    if next.Some? {
      JoinPrepend(fetches, handed, call, records, Run(next, steps[1..]));
    }
  }

  /** How Start ends; StillListing when the script ended inside getShardIds, before any launch. */
  datatype StartResult = StartError | Launched(shardIds: seq<string>) | StartCrashed | StillListing

  class KinesisConsumer {
    const streamName: string
    const wg: Sync.WaitGroup

    constructor (streamName: string)
      ensures this.streamName == streamName && fresh(wg) && wg.counter == 0
    {
      this.streamName := streamName;
      wg := new Sync.WaitGroup();
    }

    /**
     * getShardIds: the requests follow the pages (the first starts nowhere,
     * each later one after the last shard of the page before), and the result
     * is ListShards of the pages.
     */
    method GetShardIds(pages: seq<DescribeResponse>) returns (requests: seq<DescribeStreamInput>, result: Listing)
      ensures requests == DescribeRequests(streamName, pages, None)
      ensures result == ListShards(pages)
    {
      var shardIds: seq<string> := [];
      var nextToken: Option<string> := None;
      requests := [];
      result := Unfinished;
      var rest := pages;
      while rest != []
        invariant result == Unfinished
        invariant requests + DescribeRequests(streamName, rest, nextToken) == DescribeRequests(streamName, pages, None)
        invariant ListShardsFrom(rest, shardIds) == ListShards(pages)
        decreases |rest|
      {
        var input := DescribeStreamInput(streamName, None);
        if nextToken.Some? {
          input := input.(exclusiveStartShardId := nextToken);
        }
        assert input == DescribeStreamInput(streamName, nextToken);
        var output := rest[0];
        ListingStep(streamName, rest, nextToken, requests, shardIds);
        requests := requests + [input];
        if output.DescribeError? {
          result := ListError;
          break;
        }
        shardIds := shardIds + output.shardIds;
        if !output.hasMoreShards {
          result := ShardIds(shardIds);
          break;
        }
        if output.shardIds == [] {
          // indexing the last shard of an empty page panics
          result := Crashed;
          break;
        }
        nextToken := Some(LastShardId(output));
        rest := rest[1..];
      }
    }

    /** processRecords: the handler gets every record once, in order; its errors are ignored and nil is returned. */
    method ProcessRecords(records: seq<Record>, handler: Record -> bool) returns (handed: seq<Record>, err: bool)
      ensures handed == records && !err
    {
      handed := [];
      for i := 0 to |records|
        invariant handed == records[..i]
      {
        var handlerErr := handler(records[i]);
        handed := handed + [records[i]];
      }
      assert records[..|records|] == records;
      err := false;
    }

    /** processShard, run over the scripted steps; the GetShardIterator request asks for the trim horizon. */
    method ProcessShard(shardId: string, initial: IteratorResponse, steps: seq<Step>, handler: Record -> bool)
      returns (iteratorRequest: GetShardIteratorInput, run: ShardRun)
      ensures iteratorRequest == GetShardIteratorInput(streamName, shardId, "TRIM_HORIZON")
      ensures run == ShardTask(initial, steps)
    {
      iteratorRequest := GetShardIteratorInput(streamName, shardId, "TRIM_HORIZON");
      if initial.IteratorError? {
        return iteratorRequest, ShardRun([], [], InitialIteratorFailed);
      }
      var shardIterator := initial.shardIterator;
      var fetches: seq<Fetch> := [];
      var handed: seq<Record> := [];
      var rest := steps;
      while rest != []
        invariant Join(fetches, handed, Run(shardIterator, rest)) == Run(initial.shardIterator, steps)
        decreases |rest|
      {
        if rest[0].cancelled {
          return iteratorRequest, ShardRun(fetches, handed, Cancelled);
        }
        if shardIterator.None? {
          return iteratorRequest, ShardRun(fetches, handed, IteratorNil);
        }
        RunAdvance(fetches, handed, shardIterator, rest);
        var output := rest[0].fetch;
        fetches := fetches + [Fetch(GetRecordsInput(shardIterator.value, RecordLimit), output)];
        rest := rest[1..];
        if output.FetchError? {
          assert handed + [] == handed;
          continue;
        }
        if |output.records| > 0 {
          var processed, _ := ProcessRecords(output.records, handler);
          handed := handed + processed;
        } else {
          assert handed + output.records == handed;
        }
        shardIterator := output.nextShardIterator;
        if shardIterator.None? {
          return iteratorRequest, ShardRun(fetches, handed, ShardClosed);
        }
      }
      run := ShardRun(fetches, handed, Running(shardIterator));
    }

    /**
     * Start: list the shards; on an error return it and launch nothing,
     * otherwise launch one shard task per shard id, adding 1 to the wait
     * group for each.
     */
    method Start(pages: seq<DescribeResponse>) returns (result: StartResult)
      modifies wg
      ensures ListShards(pages).ListError? ==> result == StartError && wg.counter == old(wg.counter)
      ensures ListShards(pages).Crashed? ==> result == StartCrashed && wg.counter == old(wg.counter)
      ensures ListShards(pages).Unfinished? ==> result == StillListing && wg.counter == old(wg.counter)
      ensures ListShards(pages).ShardIds? ==>
        result == Launched(ListShards(pages).ids) && wg.counter == old(wg.counter) + |ListShards(pages).ids|
    {
      var _, listing := GetShardIds(pages);
      if listing.ListError? {
        return StartError;
      }
      if listing.Crashed? {
        return StartCrashed;
      }
      if listing.Unfinished? {
        return StillListing;
      }
      var shardIds := listing.ids;
      var launched: seq<string> := [];
      for i := 0 to |shardIds|
        invariant launched == shardIds[..i]
        invariant wg.counter == old(wg.counter) + i
      {
        wg.Add(1);
        launched := launched + [shardIds[i]];
      }
      assert shardIds[..|shardIds|] == shardIds;
      result := Launched(launched);
    }
  }
}
