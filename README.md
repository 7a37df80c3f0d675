# End-to-end harness: event batch and AWS observation helpers

This project models, in Dafny, the parts of the `e2e` harness of
cloudwatch-logs-to-clickhouse whose behaviour does not depend on a live
environment.

- **The synthetic event batch** (`e2e/payloads.go`):
  - the `MockScenario` names;
  - the seven-string `event` record;
  - the fixed battery of eight events, each stamped with a fresh version-4 UUID;
  - `payloads()`, which serialises the battery into a `[][]byte`.
- **The control logic of the AWS helpers** (`e2e/aws.go`):
  - `logGroupName`;
  - creating the function's log group and stream;
  - the subscription filter;
  - `printLambdaLogs`, which picks a stream and threads the pagination token;
  - `waitForLambdaToBeActive`, which polls until the function is Active;
  - `viewKinesisRecords`, which loops over shards and records and skips records it cannot decompress.

The AWS SDK, gzip, the JSON encoder, the random source behind UUIDs and the
clock are parameters:
- the CloudWatch Logs and Kinesis clients are values whose fields give the answer to each request (`Aws.LogsService`, `Aws.KinesisService`);
- the Lambda client is the sequence `observed` of answers to the successive `GetFunction` polls;
- the JSON encoder is `marshal`, gzip is `inflate`, the UUID entropy is `random`, and `time.Now` is `now`.

Most helpers return an `Aws.Run`, which records three things:
- the requests the helper sent, in order;
- the lines it wrote;
- how it ended: it returned, or `log.Fatalf` ended the process.

Two helpers return less:
- `Aws.WaitForLambdaToBeActive` writes no lines. It returns its requests (the 5-second sleep between polls is one of them) and an exit, which may also be "still polling when the supplied answers ran out".
- `Aws.PrintRecords`, the inner loop over one page of records, returns only the lines it writes.

Files:
- `common.dfy`: `Option`, `Result` and `byte`.
- `uuid.dfy`: version-4 generation (section 4.4 of RFC 4122) and the 8-4-4-4-12 text form (section 3 of RFC 4122), with its inverse.
- `payloads.dfy`: the scenario names, the event battery and the serialisation loop.
- `aws.dfy`: the AWS helpers.

## Behaviour notes

- **Failed state.** `waitForLambdaToBeActive` treats the Failed state like any other state that is not Active: it sleeps and polls again (`e2e/aws.go:190-194`).
- **Log group name.** The log group is `"/aws/lambda/" + name` (`e2e/aws.go:59-61`).
- **Subscription filter.** The filter pattern is a fixed JSON pattern on `entityId` (`e2e/aws.go:109-134`).
- **Event record.** The event record has seven string fields, and the scenario name is one of them (`e2e/payloads.go:24-32`).
- **Pagination token.** `printLambdaLogs` returns the token it was given, not the next one (see Findings).
- **Batch length.** `payloads()` returns 16 entries: 8 nils, then the 8 payloads (see Findings).

## Model

| member | source | states |
|---|---|---|
| `Payloads.String` | e2e/payloads.go:9-22 | Values 0..5 (Success … ValidationFailure) give "success" … "validationFailure" in that order. Every other value is an index-out-of-range panic. |
| `Payloads.StringInjective` | e2e/payloads.go:20-22 | The six scenario names are pairwise distinct, so `String` is injective on the declared constants. |
| `Payloads.Battery` | e2e/payloads.go:36-109 | Eight events in literal order. Event i's EntityId is the text of the i-th `NewV4` UUID. Its scenario name is `String` of the i-th listed constant. |
| `Payloads.BatteryFixedFields` | e2e/payloads.go:36-109 | Every field except EntityId is the same whatever the random source gives. |
| `Payloads.BatteryDistinctEntityIds` | e2e/payloads.go:36-109 | Pairwise distinct generated UUIDs give pairwise distinct EntityIds. |
| `Payloads.BatteryEntityIdsAreV4` | e2e/payloads.go:40 | Every EntityId is 36 characters long, with version digit 4 at position 14 and variant digit 8, 9, a or b at position 19. |
| `Payloads.Serialise` | e2e/payloads.go:110-118 | If the encoder rejects an event, the result is the error for the first such event and no slice. Otherwise the result holds `prefill` nils, then one payload per event in order. |
| `Payloads.Payloads` | e2e/payloads.go:35-119 | Succeeds exactly when every event encodes. It then returns 2 × 8 = 16 entries: entries 0..7 are nil and entry 8 + i is the encoding of event i. On failure it returns the encoder's error for a rejected event. |
| `Payloads.PayloadsExact` | e2e/payloads.go:110-118 | The corrected batch: exactly one encoding per event, 8 entries in all, with no nil. |
| `Uuid.NewV4` | e2e/payloads.go:40 | The UUID is version 4 with the RFC 4122 variant. The other 122 bits are the random source's. |
| `Uuid.ToString` | e2e/payloads.go:40 | The text form is 36 characters with hyphens at positions 8, 13, 18 and 23. |
| `Uuid.ToStringAt` | e2e/payloads.go:40 | Octet k is spelled at positions Pos(k) and Pos(k) + 1 as two lower-case hex digits, the high nibble first. |
| `Uuid.ParseToString` | e2e/payloads.go:40 | Parsing the text form gives back the UUID. |
| `Uuid.ToStringInjective` | e2e/payloads.go:40 | Distinct UUIDs have distinct text forms. |
| `Uuid.V4Text` | e2e/payloads.go:40 | The text of a version-4 UUID has '4' at position 14 and one of '8', '9', 'a', 'b' at position 19. |
| `Aws.LogGroupName` | e2e/aws.go:59-61 | The group name is the prefix "/aws/lambda/" followed by the function name. |
| `Aws.LogGroupNameInjective` | e2e/aws.go:59-61 | Different function names give different log groups. |
| `Aws.CreateLogGroupForLambda` | e2e/aws.go:63-81 | Sends CreateLogGroup, then CreateLogStream "clickhouse-log-stream" in the same group. Each error is fatal, and a failed group creation sends no stream request. It returns only when both succeed. |
| `Aws.CreateSubscription` | e2e/aws.go:109-134 | Sends one PutSubscriptionFilter with the fixed filter name, pattern and role for the function's group. A refusal is fatal, with the service's error as the reason; otherwise it returns. |
| `Aws.PrintLambdaLogs` | e2e/aws.go:136-175 | First sends DescribeLogStreams (ascending, limit 5, ordered by LastEventTime). An error or an empty stream list is fatal, and nothing else is sent. Otherwise it fetches events from stream 0 with the caller's token, from the head, starting at `now`. A fetch error is fatal; on success every message is written in order. It returns the caller's token. |
| `Aws.TokenNeverAdvances` | e2e/aws.go:156-174 | Feeding the returned token into the next call sends the same NextToken as the first call. |
| `Aws.TokenCounterexample` | e2e/aws.go:173-174 | Take a page whose forward token is "f/1" and a nil caller token. The function as written returns nil; the corrected one returns "f/1". |
| `Aws.PrintLambdaLogsForward` | e2e/aws.go:173-174 | The corrected return. It sends the same requests and writes the same lines as `PrintLambdaLogs`, and every fatal exit is the same. When that function returns, this one returns the forward token of the page fetched with the caller's token. |
| `Aws.ForwardTokenThreads` | e2e/aws.go:156-174 | With the corrected return, the next call sends the forward token of the page the previous call received. |
| `Aws.SameLogGroup` | e2e/aws.go:63-160 | For one function name, every request of group creation, the subscription and log polling addresses the group `LogGroupName` gives. |
| `Aws.EventLines` | e2e/aws.go:168-171 | One line per log event, in order, tagged with the function name. |
| `Aws.WaitForLambdaToBeActive` | e2e/aws.go:177-196 | Let k be the index of the first answer that is Active or an error. The loop sends k poll-and-sleep rounds, then one more poll. It returns on Active, and a GetFunction error is fatal. With no such answer, it is still polling after polling and sleeping on every answer. |
| `Aws.FirstSettled` | e2e/aws.go:178-195 | Every answer before index k is a non-Active state, Failed included. The answer at k, if any, is Active or an error. |
| `Aws.WaitCallsCount` | e2e/aws.go:178-195 | k poll-and-sleep rounds hold k GetFunction requests and k sleeps; a final poll adds one more GetFunction. |
| `Aws.ActiveAfterPolls` | e2e/aws.go:177-196 | If the first Active answer is at index k, the loop makes exactly k + 1 polls and k sleeps. |
| `Aws.NeverActiveKeepsPolling` | e2e/aws.go:178-195 | With no Active answer and no error, every answer is polled and slept on, and the loop never returns. |
| `Aws.PrintRecords` | e2e/aws.go:230-254 | Writes one line per record, in order. A record's line is its decoded data, or the message for the gzip step that failed; later records are still processed. |
| `Aws.ViewKinesisRecords` | e2e/aws.go:198-256 | The nested shard and record loop does exactly what the run specification `ViewRecords` describes. |
| `Aws.ShardsRunCalls` | e2e/aws.go:210-227 | A run that returns visits the shards in listed order. Each shard gets one TRIM_HORIZON GetShardIterator, then one GetRecords with exactly the iterator that came back, and both are answered without error. The next-shard iterator is never followed. |
| `Aws.ShardsRunFatal` | e2e/aws.go:210-228 | A fatal run over the shards ends on a GetShardIterator or GetRecords request the service refused, and the reason carries that error. |
| `Aws.ShardsRunIgnoresInflate` | e2e/aws.go:210-255 | Decompression results never change which requests the shard loop sends or how it ends. |
| `Aws.ViewRecordsIgnoresInflate` | e2e/aws.go:198-256 | Decompression results never change which requests `viewKinesisRecords` sends or how it ends. |
| `Aws.ViewRecordsFatal` | e2e/aws.go:198-228 | `viewKinesisRecords` always ends. A refused ListShards is fatal at once with that error. A fatal run ends on a ListShards, GetShardIterator or GetRecords error and on nothing else. A run that returns had every Kinesis request after ListShards answered without error. |
| `Aws.RecordLinesSkip` | e2e/aws.go:239-250 | A record that fails decompression contributes only its skip message, and the records after it are written as before. |

## Left out

- The SDK request bodies and the services' behaviour are parameters. This covers AWS Lambda, CloudWatch Logs and Kinesis, so what a given NextToken or StartTime returns is not modelled.
- gzip decompression (RFC 1952), `json.Marshal`, `pretty.Pretty`/`pretty.Color`, `time.Now` and the entropy of `uuid.NewV4` are parameters. A decoded record line holds the decompressed bytes, not their coloured rendering.
- `time.Sleep` is a request in the call list; the passing of time is not modelled.
- The waiter's unbounded loop is modelled over a finite sequence of answers. When the answers run out without Active or an error, the exit is `Polling`. The model bounds the loop this way so that every member ends and its contract speaks of a finite trace; `Polling` stands for the loop running on.
- The informational `log.Printf` lines are not modelled: the function state per poll, "subscription filter created" and "stream created".
- Nil-pointer dereferences of SDK results are taken to succeed: `*lambda.FunctionName` (taken as a plain `functionName`), `*result.Configuration.State`, `*streams.LogStreams[0].LogStreamName`, `*event.Message` (taken as a plain string in `messages`), `*record.SequenceNumber`, `*record.PartitionKey`.
- A failure of the UUID random source (a panic inside the library) is not modelled.
- `awsSession`, `NewNodeJsLambda` and `createKinesisDataStream` are not modelled. They are fixed-configuration SDK requests outside the observation helpers.
- e2e/main.go is not part of this model: top-level sequencing, the invoke loop, signal handling and deferred teardown. Every `log.Fatalf` and the final deferred `os.Exit` bypass the remaining defers, so no reverse-order teardown property is stated.
- Container start-up, the mock-API stub upload, and the log-sink and log-producer Lambda handlers are library and network I/O and are not modelled.
- A serialise-then-parse round trip of an event is not stated, because the JSON encoder is a parameter.

## Findings

| source | as written | input that shows it | evidently intended | confidence | as-written member | corrected member |
|---|---|---|---|---|---|---|
| e2e/payloads.go:110-116 | `make([][]byte, len(e))` followed by `append` gives 16 entries, the first 8 of them nil | any encoder that accepts all eight events: the result has length 16 and entry 0 is nil | a slice made with length 0 and capacity len(e): 8 entries, one payload per event | high; not executed | `Payloads.Payloads` | `Payloads.PayloadsExact` |
| e2e/aws.go:173-174 | returns the caller's `nextToken`; the response's forward token is never read | first stream "s", a page with forward token "f/1", caller token nil: it returns nil | return the page's `NextForwardToken` so that the next call continues after this page | high; not executed | `Aws.TokenCounterexample` | `Aws.PrintLambdaLogsForward` |
