/**
 * The control logic of the harness's AWS observation helpers (e2e/aws.go).
 *
 * The CloudWatch Logs and Kinesis clients are values whose fields answer one
 * kind of request; the Lambda client is the sequence of answers to the
 * successive GetFunction polls; gzip decompression is the function `inflate`;
 * `time.Now` is the parameter `now`.
 * What the model keeps is the order of the SDK requests, which errors end the
 * process (`log.Fatalf`), which are logged and skipped, and how the pagination
 * token and the shard iterators are threaded.
 */
module Aws {
  import opened Common

  type SdkError = string

  /** The SDK requests the helpers send, and the sleep between two polls. */
  datatype Call =
    | CreateLogGroup(logGroupName: string)
    | CreateLogStream(logGroupName: string, logStreamName: string)
    | PutSubscriptionFilter(destinationArn: string, filterName: string, filterPattern: string,
                            logGroupName: string, roleArn: string)
    | DescribeLogStreams(logGroupName: string, descending: bool, limit: int, orderBy: string)
    | GetLogEvents(logGroupName: string, logStreamName: string, nextToken: Option<string>,
                   startFromHead: bool, startTime: int)
    | GetFunction(functionName: string)
    | Sleep(seconds: nat)
    | ListShards(streamName: string)
    | GetShardIterator(streamName: string, shardId: string, shardIteratorType: string)
    | GetRecords(shardIterator: string)

  /** The log group a CloudWatch Logs request addresses, if it addresses one. */
  function GroupOf(c: Call): Option<string> {
    match c
    case CreateLogGroup(g) => Some(g)
    case CreateLogStream(g, _) => Some(g)
    case PutSubscriptionFilter(_, _, _, g, _) => Some(g)
    case DescribeLogStreams(g, _, _, _) => Some(g)
    case GetLogEvents(g, _, _, _, _) => Some(g)
    case _ => None
  }

  /** The errors that end the process through `log.Fatalf`. */
  datatype FatalError =
    | CreateLogGroupFailed(error: SdkError)
    | CreateLogStreamFailed(error: SdkError)
    | PutSubscriptionFilterFailed(error: SdkError)
    | DescribeLogStreamsFailed(error: SdkError)
    | NoLogStreams(functionName: string)
    | GetLogEventsFailed(error: SdkError)
    | GetFunctionFailed(error: SdkError)
    | ListShardsFailed(error: SdkError)
    | GetShardIteratorFailed(error: SdkError)
    | GetRecordsFailed(error: SdkError)

  /**
   * How a helper ends: it returns, the process exits fatally, or (for the
   * unbounded poll loop only) it is still polling when the observations run out.
   */
  datatype Exit<+T> = Returned(value: T) | Fatal(reason: FatalError) | Polling

  /** A line the helpers write: log events, decoded stream records, and the skip messages. */
  datatype Line =
    | LogEventLine(functionName: string, message: string)
    | RecordPrinted(sequenceNumber: string, partitionKey: string, data: seq<byte>)
    | GzipReaderFailed(error: string)
    | GzipReadFailed(error: string)

  /** The requests a helper sent, the lines it wrote, and how it ended. */
  datatype Run<+T> = Run(calls: seq<Call>, output: seq<Line>, exit: Exit<T>)

  /** A run that first sends `calls` and writes `output`, then behaves like `rest`. */
  function Prepend<T>(calls: seq<Call>, output: seq<Line>, rest: Run<T>): Run<T> {
    Run(calls + rest.calls, output + rest.output, rest.exit)
  }

  // ---------------------------------------------------------------------------
  // CloudWatch Logs

  const LOG_GROUP_PREFIX := "/aws/lambda/"
  const LOG_STREAM_NAME := "clickhouse-log-stream"
  const FILTER_NAME := "clickhouse-api-log"
  const FILTER_PATTERN := "{ ($.entityId != null) || ($.entityId != \"\") }"
  const SUBSCRIPTION_ROLE_ARN := "arn:aws:iam::123456789012:role/role-to-push-to-kinesis"
  const DESCRIBE_LIMIT := 5
  const ORDER_BY := "LastEventTime"

  datatype LogStream = LogStream(logStreamName: string)
  datatype LogEventsPage = LogEventsPage(messages: seq<string>, nextForwardToken: Option<string>,
                                         nextBackwardToken: Option<string>)

  /** The CloudWatch Logs service: the answer to each request (None is success without output). */
  datatype LogsService = LogsService(
    createLogGroup: Call -> Option<SdkError>,
    createLogStream: Call -> Option<SdkError>,
    putSubscriptionFilter: Call -> Option<SdkError>,
    describeLogStreams: Call -> Result<seq<LogStream>, SdkError>,
    getLogEvents: Call -> Result<LogEventsPage, SdkError>)

  /** `logGroupName`: the function name under the fixed Lambda log-group prefix. */
  function LogGroupName(functionName: string): (g: string)
    ensures |g| == |LOG_GROUP_PREFIX| + |functionName|
    ensures g[..|LOG_GROUP_PREFIX|] == LOG_GROUP_PREFIX
    ensures g[|LOG_GROUP_PREFIX|..] == functionName
  {
    LOG_GROUP_PREFIX + functionName
  }

  /** Different functions get different log groups. */
  lemma LogGroupNameInjective(a: string, b: string)
    ensures LogGroupName(a) == LogGroupName(b) ==> a == b
  {
    if LogGroupName(a) == LogGroupName(b) {
      assert a == LogGroupName(a)[|LOG_GROUP_PREFIX|..];
    }
  }

  /** `createCloudwatchLogGroupForLambda`: the group, then one fixed stream in it. */
  function CreateLogGroupForLambda(logs: LogsService, functionName: string): (r: Run<()>)
    ensures var group := CreateLogGroup(LogGroupName(functionName));
      var stream := CreateLogStream(LogGroupName(functionName), LOG_STREAM_NAME);
      && r.output == []
      && (logs.createLogGroup(group).Some? ==>
            r.calls == [group] && r.exit == Fatal(CreateLogGroupFailed(logs.createLogGroup(group).value)))
      && (logs.createLogGroup(group).None? && logs.createLogStream(stream).Some? ==>
            r.calls == [group, stream] && r.exit == Fatal(CreateLogStreamFailed(logs.createLogStream(stream).value)))
      && (r.exit.Returned? <==> logs.createLogGroup(group).None? && logs.createLogStream(stream).None?)
      && (r.exit.Returned? ==> r.calls == [group, stream])
  {
    var group := CreateLogGroup(LogGroupName(functionName));
    match logs.createLogGroup(group)
    case Some(err) => Run([group], [], Fatal(CreateLogGroupFailed(err)))
    case None =>
      var stream := CreateLogStream(LogGroupName(functionName), LOG_STREAM_NAME);
      match logs.createLogStream(stream)
      case Some(err) => Run([group, stream], [], Fatal(CreateLogStreamFailed(err)))
      case None => Run([group, stream], [], Returned(()))
  }

  /** `createCloudwatchSubscription`: one filter forwarding the function's group to the destination. */
  function CreateSubscription(logs: LogsService, destinationArn: string, functionName: string): (r: Run<()>)
    ensures var put := PutSubscriptionFilter(destinationArn, FILTER_NAME, FILTER_PATTERN,
                                             LogGroupName(functionName), SUBSCRIPTION_ROLE_ARN);
      && r.calls == [put] && r.output == []
      && r.exit == (if logs.putSubscriptionFilter(put).Some?
                    then Fatal(PutSubscriptionFilterFailed(logs.putSubscriptionFilter(put).value))
                    else Returned(()))
  {
    var put := PutSubscriptionFilter(destinationArn, FILTER_NAME, FILTER_PATTERN,
                                     LogGroupName(functionName), SUBSCRIPTION_ROLE_ARN);
    match logs.putSubscriptionFilter(put)
    case Some(err) => Run([put], [], Fatal(PutSubscriptionFilterFailed(err)))
    case None => Run([put], [], Returned(()))
  }

  /** The request that lists the function's log streams. */
  function DescribeRequest(functionName: string): Call {
    DescribeLogStreams(LogGroupName(functionName), false, DESCRIBE_LIMIT, ORDER_BY)
  }

  /** The lines written for the events of one page, in order. */
  function EventLines(functionName: string, messages: seq<string>): (lines: seq<Line>)
    ensures |lines| == |messages|
    ensures forall i :: 0 <= i < |messages| ==> lines[i] == LogEventLine(functionName, messages[i])
  {
    if messages == [] then [] else [LogEventLine(functionName, messages[0])] + EventLines(functionName, messages[1..])
  }

  /**
   * The body shared by `printLambdaLogs` and its corrected form: list the
   * streams, take the first, fetch one page of events with the caller's token,
   * and write the events. The run's value is the page that came back.
   */
  function FetchLogEvents(logs: LogsService, functionName: string, nextToken: Option<string>, now: int)
    : (r: Run<LogEventsPage>)
  {
    var describe := DescribeRequest(functionName);
    match logs.describeLogStreams(describe)
    case Err(err) => Run([describe], [], Fatal(DescribeLogStreamsFailed(err)))
    case Ok(streams) =>
      if |streams| == 0 then Run([describe], [], Fatal(NoLogStreams(functionName)))
      else
        var get := GetLogEvents(LogGroupName(functionName), streams[0].logStreamName, nextToken, true, now);
        match logs.getLogEvents(get)
        case Err(err) => Run([describe, get], [], Fatal(GetLogEventsFailed(err)))
        case Ok(page) => Run([describe, get], EventLines(functionName, page.messages), Returned(page))
  }

  /** The run of a fetch, returning `token` in place of the page. */
  function WithToken(r: Run<LogEventsPage>, token: Option<string>): Run<Option<string>> {
    Run(r.calls, r.output, match r.exit
                           case Returned(_) => Returned(token)
                           case Fatal(reason) => Fatal(reason)
                           case Polling => Polling)
  }

  /**
   * `printLambdaLogs` as written. Describing the streams fails or finds none:
   * fatal, nothing else is sent. Otherwise the events of the first stream are
   * fetched with the caller's token and written, and the caller's token comes
   * back unchanged.
   */
  function PrintLambdaLogs(logs: LogsService, functionName: string, nextToken: Option<string>, now: int)
    : (r: Run<Option<string>>)
    ensures var describe := DescribeRequest(functionName);
      var listed := logs.describeLogStreams(describe);
      && 1 <= |r.calls| <= 2 && r.calls[0] == describe
      && (listed.Err? ==> r == Run([describe], [], Fatal(DescribeLogStreamsFailed(listed.error))))
      && (listed == Ok([]) ==> r == Run([describe], [], Fatal(NoLogStreams(functionName))))
      && (listed.Ok? && |listed.value| > 0 ==>
            var get := GetLogEvents(LogGroupName(functionName), listed.value[0].logStreamName, nextToken, true, now);
            var page := logs.getLogEvents(get);
            && r.calls == [describe, get]
            && (page.Err? ==> r.output == [] && r.exit == Fatal(GetLogEventsFailed(page.error)))
            && (page.Ok? ==> r.output == EventLines(functionName, page.value.messages) && r.exit == Returned(nextToken)))
  {
    WithToken(FetchLogEvents(logs, functionName, nextToken, now), nextToken)
  }

  /** The evidently intended `printLambdaLogs`: it returns the page's forward token. */
  function PrintLambdaLogsForward(logs: LogsService, functionName: string, nextToken: Option<string>, now: int)
    : (r: Run<Option<string>>)
    ensures var w := PrintLambdaLogs(logs, functionName, nextToken, now);
      && r.calls == w.calls && r.output == w.output
      && (!w.exit.Returned? ==> r.exit == w.exit)
      && (w.exit.Returned? ==>
            && |w.calls| == 2 && w.calls[1].GetLogEvents? && w.calls[1].nextToken == nextToken
            && logs.getLogEvents(w.calls[1]).Ok?
            && r.exit == Returned(logs.getLogEvents(w.calls[1]).value.nextForwardToken))
  {
    var f := FetchLogEvents(logs, functionName, nextToken, now);
    match f.exit
    case Returned(page) => WithToken(f, page.nextForwardToken)
    case _ => WithToken(f, None)
  }

  /**
   * Feeding the value `printLambdaLogs` returned into the next call sends the
   * same pagination token again, whatever the first page's forward token was.
   */
  lemma TokenNeverAdvances(logs: LogsService, functionName: string, token: Option<string>, now1: int, now2: int)
    requires PrintLambdaLogs(logs, functionName, token, now1).exit.Returned?
    ensures var first := PrintLambdaLogs(logs, functionName, token, now1);
      var second := PrintLambdaLogs(logs, functionName, first.exit.value, now2);
      && first.exit.value == token
      && |first.calls| == 2
      && (|second.calls| == 2 ==> second.calls[1].nextToken == first.calls[1].nextToken)
  {
  }

  /**
   * A first page whose forward token differs from the token sent: the value
   * `printLambdaLogs` returns is not the forward token the next call needs.
   */
  lemma TokenCounterexample()
    ensures var logs := LogsService(
        _ => None, _ => None, _ => None,
        _ => Ok([LogStream("s")]),
        _ => Ok(LogEventsPage(["hello"], Some("f/1"), Some("b/1"))));
      && PrintLambdaLogs(logs, "log-producer", None, 0).exit == Returned(None)
      && PrintLambdaLogsForward(logs, "log-producer", None, 0).exit == Returned(Some("f/1"))
  {
  }

  /**
   * With the corrected return value, feeding it into the next call sends the
   * forward token of the page the first call received.
   */
  lemma ForwardTokenThreads(logs: LogsService, functionName: string, token: Option<string>, now1: int, now2: int)
    requires PrintLambdaLogsForward(logs, functionName, token, now1).exit.Returned?
    ensures var first := PrintLambdaLogsForward(logs, functionName, token, now1);
      var second := PrintLambdaLogsForward(logs, functionName, first.exit.value, now2);
      && |first.calls| == 2 && logs.getLogEvents(first.calls[1]).Ok?
      && (|second.calls| == 2 ==> second.calls[1].nextToken == logs.getLogEvents(first.calls[1]).value.nextForwardToken)
  {
  }

  /**
   * For one function name, log-group creation, the subscription and log
   * polling address the same log group: the one `LogGroupName` derives.
   */
  lemma SameLogGroup(logs: LogsService, functionName: string, destinationArn: string, token: Option<string>, now: int)
    ensures var runs := [CreateLogGroupForLambda(logs, functionName), CreateSubscription(logs, destinationArn, functionName)];
      forall r, c :: r in runs && c in r.calls ==> GroupOf(c) == Some(LogGroupName(functionName))
    ensures forall c :: c in PrintLambdaLogs(logs, functionName, token, now).calls ==> GroupOf(c) == Some(LogGroupName(functionName))
  {
  }

  // ---------------------------------------------------------------------------
  // Lambda

  const POLL_INTERVAL_SECONDS := 5

  datatype FunctionState = Pending | Active | Inactive | Failed

  /** Index of the first answer that ends the poll loop (an error or Active), or |observed|. */
  function FirstSettled(observed: seq<Result<FunctionState, SdkError>>): (k: nat)
    ensures k <= |observed|
    ensures forall j :: 0 <= j < k ==> observed[j].Ok? && observed[j].value != Active
    ensures k < |observed| ==> observed[k].Err? || observed[k].value == Active
  {
    if observed == [] then 0
    else if observed[0].Err? || observed[0].value == Active then 0
    else 1 + FirstSettled(observed[1..])
  }

  lemma SettledAt(observed: seq<Result<FunctionState, SdkError>>, k: nat)
    requires k <= |observed|
    requires forall j :: 0 <= j < k ==> observed[j].Ok? && observed[j].value != Active
    requires k < |observed| ==> observed[k].Err? || observed[k].value == Active
    ensures FirstSettled(observed) == k
  {
  }

  /** The requests of `polls` poll-and-sleep rounds, followed by one last poll if `last`. */
  function WaitCalls(functionName: string, polls: nat, last: bool): seq<Call> {
    if last then WaitCalls(functionName, polls, false) + [GetFunction(functionName)]
    else if polls == 0 then []
    else WaitCalls(functionName, polls - 1, false) + [GetFunction(functionName), Sleep(POLL_INTERVAL_SECONDS)]
  }

  /** The rounds before the settling answer poll and sleep; the settling answer is one more poll. */
  lemma {:induction false} WaitCallsCount(functionName: string, polls: nat, last: bool)
    ensures var calls := WaitCalls(functionName, polls, last);
      && multiset(calls)[GetFunction(functionName)] == polls + (if last then 1 else 0)
      && multiset(calls)[Sleep(POLL_INTERVAL_SECONDS)] == polls
      && |calls| == 2 * polls + (if last then 1 else 0)
  {
    if last {
      WaitCallsCount(functionName, polls, false);
    } else if polls > 0 {
      WaitCallsCount(functionName, polls - 1, false);
    }
  }

  /**
   * `waitForLambdaToBeActive`, given the answers to its successive
   * `GetFunction` polls. It returns only after an answer says Active; an error
   * answer is fatal; every other state (Failed included) is followed by a
   * sleep and another poll. When the answers run out before either happens,
   * the loop is still polling.
   */
  method WaitForLambdaToBeActive(functionName: string, observed: seq<Result<FunctionState, SdkError>>)
    returns (calls: seq<Call>, exit: Exit<()>)
    ensures var k := FirstSettled(observed);
      && calls == WaitCalls(functionName, k, k < |observed|)
      && exit == (if k == |observed| then Polling
                  else if observed[k].Err? then Fatal(GetFunctionFailed(observed[k].error))
                  else Returned(()))
  {
    calls := [];
    var i := 0;
    while i < |observed|
      invariant 0 <= i <= |observed|
      invariant forall j :: 0 <= j < i ==> observed[j].Ok? && observed[j].value != Active
      invariant calls == WaitCalls(functionName, i, false)
    {
      calls := calls + [GetFunction(functionName)];
      var result := observed[i];
      if result.Err? {
        SettledAt(observed, i);
        return calls, Fatal(GetFunctionFailed(result.error));
      }
      if result.value == Active {
        SettledAt(observed, i);
        return calls, Returned(());
      }
      calls := calls + [Sleep(POLL_INTERVAL_SECONDS)];
      i := i + 1;
    }
    SettledAt(observed, i);
    exit := Polling;
  }

  /**
   * Success is reported only on an Active answer, after exactly k + 1 polls and
   * k sleeps, where k is the index of that answer.
   */
  lemma ActiveAfterPolls(functionName: string, observed: seq<Result<FunctionState, SdkError>>, k: nat)
    requires k < |observed| && observed[k] == Ok(Active)
    requires forall j :: 0 <= j < k ==> observed[j].Ok? && observed[j].value != Active
    ensures FirstSettled(observed) == k
    ensures multiset(WaitCalls(functionName, k, true))[GetFunction(functionName)] == k + 1
    ensures multiset(WaitCalls(functionName, k, true))[Sleep(POLL_INTERVAL_SECONDS)] == k
  {
    SettledAt(observed, k);
    WaitCallsCount(functionName, k, true);
  }

  /** With no Active and no error among the answers, every answer is polled and slept on. */
  lemma NeverActiveKeepsPolling(functionName: string, observed: seq<Result<FunctionState, SdkError>>)
    requires forall j :: 0 <= j < |observed| ==> observed[j].Ok? && observed[j].value != Active
    ensures FirstSettled(observed) == |observed|
    ensures multiset(WaitCalls(functionName, |observed|, false))[GetFunction(functionName)] == |observed|
    ensures multiset(WaitCalls(functionName, |observed|, false))[Sleep(POLL_INTERVAL_SECONDS)] == |observed|
  {
    SettledAt(observed, |observed|);
    WaitCallsCount(functionName, |observed|, false);
  }

  // ---------------------------------------------------------------------------
  // Kinesis

  const TRIM_HORIZON := "TRIM_HORIZON"

  datatype Shard = Shard(shardId: string)
  datatype Record = Record(sequenceNumber: string, partitionKey: string, data: seq<byte>)
  datatype RecordsPage = RecordsPage(records: seq<Record>, nextShardIterator: Option<string>)

  /** The Kinesis service: the answer to each request. */
  datatype KinesisService = KinesisService(
    listShards: Call -> Result<seq<Shard>, SdkError>,
    getShardIterator: Call -> Result<string, SdkError>,
    getRecords: Call -> Result<RecordsPage, SdkError>)

  /** What `gzip.NewReader` and then `ioutil.ReadAll` make of a record's data. */
  datatype Inflate = BadHeader(error: string) | BadBody(error: string) | Inflated(data: seq<byte>)

  /** The one line a record gives: its decoded data, or the message of the step that failed. */
  function RecordLine(rec: Record, inflate: seq<byte> -> Inflate): Line {
    match inflate(rec.data)
    case BadHeader(err) => GzipReaderFailed(err)
    case BadBody(err) => GzipReadFailed(err)
    case Inflated(d) => RecordPrinted(rec.sequenceNumber, rec.partitionKey, d)
  }

  /** The lines of a page of records, one per record, in order. */
  function RecordLines(records: seq<Record>, inflate: seq<byte> -> Inflate): (lines: seq<Line>)
    ensures |lines| == |records|
  {
    seq(|records|, i requires 0 <= i < |records| => RecordLine(records[i], inflate))
  }

  /** The run of the loop body over the shards, from the given one to the last. */
  function ShardsRun(stream: string, shards: seq<Shard>, kinesis: KinesisService, inflate: seq<byte> -> Inflate)
    : Run<()>
    decreases |shards|
  {
    if shards == [] then Run([], [], Returned(()))
    else
      var iterate := GetShardIterator(stream, shards[0].shardId, TRIM_HORIZON);
      match kinesis.getShardIterator(iterate)
      case Err(err) => Run([iterate], [], Fatal(GetShardIteratorFailed(err)))
      case Ok(shardIterator) =>
        var get := GetRecords(shardIterator);
        match kinesis.getRecords(get)
        case Err(err) => Run([iterate, get], [], Fatal(GetRecordsFailed(err)))
        case Ok(page) =>
          Prepend([iterate, get], RecordLines(page.records, inflate), ShardsRun(stream, shards[1..], kinesis, inflate))
  }

  /** The run of `viewKinesisRecords`: list the shards, then the loop over them. */
  function ViewRecords(stream: string, kinesis: KinesisService, inflate: seq<byte> -> Inflate): Run<()> {
    var list := ListShards(stream);
    match kinesis.listShards(list)
    case Err(err) => Run([list], [], Fatal(ListShardsFailed(err)))
    case Ok(shards) => Prepend([list], [], ShardsRun(stream, shards, kinesis, inflate))
  }

  lemma PrependPrepend<T>(calls1: seq<Call>, output1: seq<Line>, calls2: seq<Call>, output2: seq<Line>, rest: Run<T>)
    ensures Prepend(calls1, output1, Prepend(calls2, output2, rest)) == Prepend(calls1 + calls2, output1 + output2, rest)
  {
    assert calls1 + (calls2 + rest.calls) == calls1 + calls2 + rest.calls;
    assert output1 + (output2 + rest.output) == output1 + output2 + rest.output;
  }

  /**
   * The inner loop of `viewKinesisRecords` over one page of records: a record
   * whose gzip reader cannot be made, or whose data cannot be read, is logged
   * and skipped with `continue`; every other record is written.
   */
  method PrintRecords(records: seq<Record>, inflate: seq<byte> -> Inflate) returns (lines: seq<Line>)
    ensures lines == RecordLines(records, inflate)
  {
    lines := [];
    for j := 0 to |records|
      invariant lines == RecordLines(records[..j], inflate)
    {
      assert records[..j + 1] == records[..j] + [records[j]];
      var rec := records[j];
      var inflated := inflate(rec.data);
      if inflated.BadHeader? {
        lines := lines + [GzipReaderFailed(inflated.error)];
        continue;
      }
      if inflated.BadBody? {
        lines := lines + [GzipReadFailed(inflated.error)];
        continue;
      }
      lines := lines + [RecordPrinted(rec.sequenceNumber, rec.partitionKey, inflated.data)];
    }
    assert records[..|records|] == records;
  }

  /**
   * `viewKinesisRecords`: for each listed shard, one TRIM_HORIZON iterator and
   * one GetRecords; each record is decompressed and written, or skipped with a
   * message when decompression fails. SDK errors are fatal.
   */
  method ViewKinesisRecords(stream: string, kinesis: KinesisService, inflate: seq<byte> -> Inflate)
    returns (r: Run<()>)
    ensures r == ViewRecords(stream, kinesis, inflate)
  {
    var list := ListShards(stream);
    var listed := kinesis.listShards(list);
    if listed.Err? {
      return Run([list], [], Fatal(ListShardsFailed(listed.error)));
    }
    var shards := listed.value;
    var calls, output := [list], [];
    for s := 0 to |shards|
      invariant Prepend(calls, output, ShardsRun(stream, shards[s..], kinesis, inflate)) == ViewRecords(stream, kinesis, inflate)
    {
      ghost var here := ShardsRun(stream, shards[s..], kinesis, inflate);
      ghost var rest := ShardsRun(stream, shards[s + 1..], kinesis, inflate);
      assert shards[s..][0] == shards[s] && shards[s..][1..] == shards[s + 1..];
      var iterate := GetShardIterator(stream, shards[s].shardId, TRIM_HORIZON);
      var handed := kinesis.getShardIterator(iterate);
      if handed.Err? {
        assert here == Run([iterate], [], Fatal(GetShardIteratorFailed(handed.error)));
        return Run(calls + [iterate], output, Fatal(GetShardIteratorFailed(handed.error)));
      }
      var get := GetRecords(handed.value);
      var got := kinesis.getRecords(get);
      if got.Err? {
        assert here == Run([iterate, get], [], Fatal(GetRecordsFailed(got.error)));
        return Run(calls + [iterate, get], output, Fatal(GetRecordsFailed(got.error)));
      }
      var lines := PrintRecords(got.value.records, inflate);
      assert here == Prepend([iterate, get], lines, rest);
      PrependPrepend(calls, output, [iterate, get], lines, rest);
      calls, output := calls + [iterate, get], output + lines;
    }
    return Run(calls, output, Returned(()));
  }

  /**
   * Decompression never changes which requests are sent or how the run ends:
   * only SDK answers do.
   */
  lemma {:induction false} ShardsRunIgnoresInflate(stream: string, shards: seq<Shard>, kinesis: KinesisService,
                                                   inflate1: seq<byte> -> Inflate, inflate2: seq<byte> -> Inflate)
    ensures ShardsRun(stream, shards, kinesis, inflate1).calls == ShardsRun(stream, shards, kinesis, inflate2).calls
    ensures ShardsRun(stream, shards, kinesis, inflate1).exit == ShardsRun(stream, shards, kinesis, inflate2).exit
    decreases |shards|
  {
    if shards != [] {
      ShardsRunIgnoresInflate(stream, shards[1..], kinesis, inflate1, inflate2);
    }
  }

  lemma ViewRecordsIgnoresInflate(stream: string, kinesis: KinesisService,
                                  inflate1: seq<byte> -> Inflate, inflate2: seq<byte> -> Inflate)
    ensures ViewRecords(stream, kinesis, inflate1).calls == ViewRecords(stream, kinesis, inflate2).calls
    ensures ViewRecords(stream, kinesis, inflate1).exit == ViewRecords(stream, kinesis, inflate2).exit
  {
    var list := ListShards(stream);
    if kinesis.listShards(list).Ok? {
      ShardsRunIgnoresInflate(stream, kinesis.listShards(list).value, kinesis, inflate1, inflate2);
    }
  }

  /**
   * A run over the shards that returns sent, for shard i in listed order, a
   * TRIM_HORIZON iterator request and then one GetRecords with exactly the
   * iterator that request gave back: the next-shard iterator is never used.
   */
  lemma {:induction false} ShardsRunCalls(stream: string, shards: seq<Shard>, kinesis: KinesisService,
                                          inflate: seq<byte> -> Inflate)
    ensures var r := ShardsRun(stream, shards, kinesis, inflate);
      r.exit.Returned? ==>
        && |r.calls| == 2 * |shards|
        && forall i :: 0 <= i < |shards| ==>
             && r.calls[2 * i] == GetShardIterator(stream, shards[i].shardId, TRIM_HORIZON)
             && kinesis.getShardIterator(r.calls[2 * i]).Ok?
             && r.calls[2 * i + 1] == GetRecords(kinesis.getShardIterator(r.calls[2 * i]).value)
             && kinesis.getRecords(r.calls[2 * i + 1]).Ok?
    decreases |shards|
  {
    var r := ShardsRun(stream, shards, kinesis, inflate);
    if shards != [] && r.exit.Returned? {
      var iterate := GetShardIterator(stream, shards[0].shardId, TRIM_HORIZON);
      var get := GetRecords(kinesis.getShardIterator(iterate).value);
      var rest := ShardsRun(stream, shards[1..], kinesis, inflate);
      ShardsRunCalls(stream, shards[1..], kinesis, inflate);
      assert r.calls == [iterate, get] + rest.calls;
      forall i | 1 <= i < |shards|
        ensures r.calls[2 * i] == rest.calls[2 * (i - 1)] && r.calls[2 * i + 1] == rest.calls[2 * (i - 1) + 1]
        ensures shards[i] == shards[1..][i - 1]
      {
      }
    }
  }

  /**
   * A fatal run over the shards ends on a request the service refused, and
   * the reason carries that refusal; no record's decompression can end it.
   */
  lemma {:induction false} ShardsRunFatal(stream: string, shards: seq<Shard>, kinesis: KinesisService,
                                          inflate: seq<byte> -> Inflate)
    ensures var r := ShardsRun(stream, shards, kinesis, inflate);
      && !r.exit.Polling?
      && (r.exit.Fatal? ==>
            && |r.calls| > 0
            && var last := r.calls[|r.calls| - 1];
               || (last.GetShardIterator? && r.exit.reason.GetShardIteratorFailed?
                   && kinesis.getShardIterator(last) == Err(r.exit.reason.error))
               || (last.GetRecords? && r.exit.reason.GetRecordsFailed?
                   && kinesis.getRecords(last) == Err(r.exit.reason.error)))
    decreases |shards|
  {
    if shards != [] {
      ShardsRunFatal(stream, shards[1..], kinesis, inflate);
    }
  }

  /**
   * How `viewKinesisRecords` ends. A refused ListShards is fatal before any
   * other request; a fatal run ends on a refused ListShards, GetShardIterator
   * or GetRecords and on nothing else; and a run that returns had every one of
   * its Kinesis requests answered without error.
   */
  lemma ViewRecordsFatal(stream: string, kinesis: KinesisService, inflate: seq<byte> -> Inflate)
    ensures var r := ViewRecords(stream, kinesis, inflate);
      var listed := kinesis.listShards(ListShards(stream));
      && !r.exit.Polling?
      && (listed.Err? ==> r == Run([ListShards(stream)], [], Fatal(ListShardsFailed(listed.error))))
      && (r.exit.Fatal? ==>
            r.exit.reason.ListShardsFailed? || r.exit.reason.GetShardIteratorFailed? || r.exit.reason.GetRecordsFailed?)
      && (r.exit.Returned? ==>
            && listed.Ok? && |r.calls| > 0 && r.calls[0] == ListShards(stream)
            && forall i :: 0 < i < |r.calls| ==>
                 || (r.calls[i].GetShardIterator? && kinesis.getShardIterator(r.calls[i]).Ok?)
                 || (r.calls[i].GetRecords? && kinesis.getRecords(r.calls[i]).Ok?))
  {
    var r := ViewRecords(stream, kinesis, inflate);
    var listed := kinesis.listShards(ListShards(stream));
    if listed.Ok? {
      var shards := listed.value;
      var s := ShardsRun(stream, shards, kinesis, inflate);
      ShardsRunFatal(stream, shards, kinesis, inflate);
      ShardsRunCalls(stream, shards, kinesis, inflate);
      assert r.calls == [ListShards(stream)] + s.calls;
      if r.exit.Returned? {
        forall i | 0 < i < |r.calls|
          ensures || (r.calls[i].GetShardIterator? && kinesis.getShardIterator(r.calls[i]).Ok?)
                  || (r.calls[i].GetRecords? && kinesis.getRecords(r.calls[i]).Ok?)
        {
          var j := (i - 1) / 2;
          assert r.calls[i] == s.calls[i - 1];
          assert i - 1 == 2 * j || i - 1 == 2 * j + 1;
        }
      }
    }
  }

  /**
   * A record whose decompression fails contributes only its message; the
   * records after it are still decoded and written.
   */
  lemma RecordLinesSkip(before: seq<Record>, bad: Record, after: seq<Record>, inflate: seq<byte> -> Inflate)
    requires !inflate(bad.data).Inflated?
    ensures RecordLines(before + [bad] + after, inflate)
         == RecordLines(before, inflate)
            + [if inflate(bad.data).BadHeader? then GzipReaderFailed(inflate(bad.data).error)
               else GzipReadFailed(inflate(bad.data).error)]
            + RecordLines(after, inflate)
  {
    var all := before + [bad] + after;
    assert forall i :: 0 <= i < |after| ==> all[|before| + 1 + i] == after[i];
  }
}
