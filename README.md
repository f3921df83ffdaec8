# event_tracer: DynamoDB batch dispatch and Appsignal metrics, in Dafny

This project models the logic of three classes of the `event_tracer` gem.

- **`DynamoDBLogWorker`** is the background job that persists log records.
  It normalises its argument to a list of records and splits the list into
  batches of at most 25, the per-request limit of `batch_write_item`. It
  strips empty-string values from every record of a batch, at every nesting
  depth, and then issues one write per batch. A `ServiceError` on one write
  is reported once to the error logger, and the job goes on with the next
  batch.
- **`DynamoDBLogger`** is the logger facade. Each log call builds one
  payload and then takes one of three paths. With no buffer, it submits the
  payload as a job of its own. If the buffer accepts the payload, nothing is
  submitted. If the buffer refuses it, the flushed records followed by the
  payload go out as one job. Every call reports success.
- **`AppsignalLogger`** turns a `metrics` argument into Appsignal client
  calls. A list of names increments one counter per name. A Hash of
  `{type, value}` entries sends each value through the client method its
  type selects. The first entry with an unknown type ends the call with a
  failure, and the calls already made stay made.

The files:

- `event_tracer.dfy`: the shared values: payload values, records, log types and log results.
- `dynamo_db_log_worker.dfy`: `Wrap`, `EachSlice`, the sanitiser and `Perform`.
- `dynamo_db_logger.dfy`: the buffer and the logger facade.
- `appsignal_logger.dfy`: the metric dispatcher.

Collaborators the model cannot see are stood in for as follows:

- The DynamoDB client is an oracle. `failures` maps a batch index to the
  `ServiceError` that batch's write raises. `Perform` returns the trace of
  what it does: each `BatchWriteItem` and each error-logger entry.
- `perform_async` appends the job to the logger's `jobs`.
- The Appsignal client is the sequence of calls that `Log` returns.
- `prepare_payload` is a function the logger is constructed with.
- The table name and the application name are fields of `Config`.

The buffer class itself is not part of this model. Its contract is assumed
as follows:

- `add` keeps the record and answers true while fewer than `capacity`
  records are pending.
- Otherwise `add` leaves the buffer unchanged and answers false, so a
  capacity of 0 refuses every record.
- `flush` returns the pending records and empties the buffer.

Under this contract the facade's `buffer.flush + [payload]` neither loses
nor duplicates a record: a buffer of capacity N holds N records, and the
(N+1)-th call submits all N+1 of them as one job (see `BufferedScenario`,
where N = 2).

## Model

| member | source | states |
|---|---|---|
| `DynamoDBLogWorker.Wrap` | lib/event_tracer/dynamo_db_log_worker.rb:38-45 | a single Hash becomes a one-element list holding it; a list passes through unchanged; nil becomes the empty list |
| `DynamoDBLogWorker.EachSlice` | lib/event_tracer/dynamo_db_log_worker.rb:16 | the chunks put end to end give back the input exactly; every chunk holds 1 to `size` items; every chunk but the last holds exactly `size` |
| `DynamoDBLogWorker.BatchCount` | lib/event_tracer/dynamo_db_log_worker.rb:13-16 | n records make ceil(n / 25) batches |
| `DynamoDBLogWorker.CleanIsSound` | lib/event_tracer/dynamo_db_log_worker.rb:48-58 | after cleaning, no empty string is left at any depth; only empty-string fields were removed; nested Hashes stay Hashes (cleaned recursively); every other value is unchanged |
| `DynamoDBLogWorker.CleanIsUnique` | lib/event_tracer/dynamo_db_log_worker.rb:48-58 | any Hash obtained by removing only empty strings and left with none is the cleaned Hash: the two properties above define cleaning |
| `DynamoDBLogWorker.CleanFixesClean` | lib/event_tracer/dynamo_db_log_worker.rb:48-58 | a Hash without empty strings at any depth is left as it is |
| `DynamoDBLogWorker.CleanIsIdempotent` | lib/event_tracer/dynamo_db_log_worker.rb:48-58 | cleaning a cleaned Hash changes nothing |
| `DynamoDBLogWorker.CleanKeepsAllButEmptyStrings` | lib/event_tracer/dynamo_db_log_worker.rb:49-56 | a key is kept exactly when its value is not an empty String; a nested Hash is never removed, even when cleaning empties it; numbers, booleans, nil, lists and non-empty strings are kept unchanged |
| `DynamoDBLogWorker.CleanEmptyValues` | lib/event_tracer/dynamo_db_log_worker.rb:48-58 | the key-by-key loop with its recursion into nested Hashes computes exactly the cleaned Hash |
| `DynamoDBLogWorker.PutRequestPerRecord` | lib/event_tracer/dynamo_db_log_worker.rb:17-19 | a batch yields exactly one put request per record, in order, each holding that record cleaned |
| `DynamoDBLogWorker.BuildPutRequests` | lib/event_tracer/dynamo_db_log_worker.rb:17-19 | the map over the batch, cleaning each record with `CleanEmptyValues`, builds exactly the batch's specified put requests |
| `DynamoDBLogWorker.Perform` | lib/event_tracer/dynamo_db_log_worker.rb:15-34 | the loop over batches, each item cleaned, each write followed by an error report only when it raised, emits exactly the job's specified trace |
| `DynamoDBLogWorker.PerformWritesEveryBatch` | lib/event_tracer/dynamo_db_log_worker.rb:16-33 | the writes are ceil(n / 25) in number, one per batch, in order; each carries one put request per record of its batch, in order, cleaned, under the configured table; the error reports are one per failing write, in batch order, each carrying that write's error class and message, from loggers `[base]` with action 'DynamoDBLogWorker' and the application's name |
| `DynamoDBLogWorker.WritesIgnoreFailures` | lib/event_tracer/dynamo_db_log_worker.rb:21-33 | the writes a job issues are the same whichever of them raise a `ServiceError`: a `ServiceError` never stops a later batch |
| `DynamoDBLogWorker.OneFailureIsIsolated` | lib/event_tracer/dynamo_db_log_worker.rb:21-33 | a service error on one batch yields exactly one error report, carrying that error's class and message, and every batch is still written |
| `DynamoDBLogger.Buffer.Add` | lib/event_tracer/dynamo_db_logger.rb:23 | a record is kept, and true answered, exactly when fewer than `capacity` records are pending; otherwise the buffer is unchanged; the pending count never exceeds the capacity |
| `DynamoDBLogger.Buffer.Flush` | lib/event_tracer/dynamo_db_logger.rb:24 | returns the pending records in order and leaves the buffer empty |
| `DynamoDBLogger.DynamoDBLogger.constructor` | lib/event_tracer/dynamo_db_logger.rb:5-7 | a logger with or without a buffer, no job submitted, conservation holding from the start |
| `DynamoDBLogger.DynamoDBLogger.SaveMessage` | lib/event_tracer/dynamo_db_logger.rb:9-32 | the payload is built with the caller's log type; without a buffer exactly one job holding that single record is submitted; if the buffer accepts it, no job is submitted and the record is pending; if the buffer refuses it, exactly one job is submitted holding the pending records in order followed by the record, and the buffer is left empty; the result is always success; conservation is kept: the submitted jobs end to end followed by the pending records are all payloads in call order |
| `DynamoDBLogger.UnbufferedScenario` | lib/event_tracer/dynamo_db_logger.rb:27-29 | without a buffer, two calls submit two single-record jobs in call order |
| `DynamoDBLogger.BufferedScenario` | lib/event_tracer/dynamo_db_logger.rb:22-26 | with capacity 2, two calls submit nothing, the third submits all three records as one job and empties the buffer, and a fourth is buffered |
| `DynamoDBLogger.ZeroCapacityScenario` | lib/event_tracer/dynamo_db_logger.rb:22-26 | with capacity 0, every call at once submits a one-record list |
| `AppsignalLogger.AppsignalLogger.constructor` | lib/event_tracer/appsignal_logger.rb:24-27 | the logger keeps the allowed tags it is given |
| `AppsignalLogger.BackendFor` | lib/event_tracer/appsignal_logger.rb:45-52 | a type has a client method exactly when it is a Symbol or String naming an entry of the table (counter, distribution, gauge), and that method is the table's |
| `AppsignalLogger.Tags` | lib/event_tracer/appsignal_logger.rb:36 | no tags when no tags are allowed; otherwise exactly the arguments whose names are allowed, with their values |
| `AppsignalLogger.FirstUnsupported` | lib/event_tracer/appsignal_logger.rb:44-55 | every entry before the returned index has a known type, and the entry at it, if any, does not |
| `AppsignalLogger.SendNames` | lib/event_tracer/appsignal_logger.rb:40-42 | the loop over a list emits exactly one default-counter increment per name, in order |
| `AppsignalLogger.SendEntries` | lib/event_tracer/appsignal_logger.rb:44-55 | the loop over a Hash, with its two early failure returns, emits the calls for the entries before the first unknown type and fails naming that type, or emits every entry's call and succeeds |
| `AppsignalLogger.AppsignalLogger.Log` | lib/event_tracer/appsignal_logger.rb:29-60 | validation, the early return on empty metrics, the tag computation and the two loops with their early failure return and emit exactly the specified result and calls |
| `AppsignalLogger.RejectedFails` | lib/event_tracer/appsignal_logger.rb:33 | an argument that fails validation returns 'Invalid appsignal config' and emits no call |
| `AppsignalLogger.EmptySucceeds` | lib/event_tracer/appsignal_logger.rb:34 | an empty list or Hash returns success and emits no call |
| `AppsignalLogger.NamesIncrementEachCounter` | lib/event_tracer/appsignal_logger.rb:38-42 | a list emits one `increment_counter` per name, in order, with value 1 and the computed tags, and succeeds |
| `AppsignalLogger.SupportedEntriesAreSent` | lib/event_tracer/appsignal_logger.rb:43-58 | when every entry's type is known, each entry emits one call, in order, with its name, its value and the tags; counter goes to `increment_counter`, distribution to `add_distribution_value` and gauge to `set_gauge`; the call succeeds |
| `AppsignalLogger.UnsupportedEntryStops` | lib/event_tracer/appsignal_logger.rb:44-55 | an entry whose type is not a Symbol or String, or is not in the table, fails with 'Appsignal metric <type> invalid'; the calls for the earlier entries stay emitted, and no later entry emits anything |
| `AppsignalLogger.SuccessIffAllSupported` | lib/event_tracer/appsignal_logger.rb:33-58 | a call succeeds exactly when its argument passes validation and, for a Hash, every entry's type is known |

## Left out

- Sidekiq is left out: `include Sidekiq::Worker`, `sidekiq_options retry: 1, queue: 'low'` and the asynchrony of `perform_async`. Submitting a job appends it to `jobs`, and retries belong to the framework.
- Only `Aws::DynamoDB::Errors::ServiceError` is rescued. Any other exception raised while a batch is built or written (an SDK networking or credentials error, or cleaning an item that is not a Hash) escapes `perform` and abandons the remaining batches, leaving the retry to the job framework. This is not modelled: the `failures` oracle raises only `ServiceError`s.
- The AWS SDK is left out. The write is an oracle that either succeeds or raises a `ServiceError`. `ENV.fetch` of the table name becomes a `Config` field.
- `EventTracer.error` is not part of this model. Its call is recorded as an `ErrorLogged` event.
- `prepare_payload` is not part of this model. The logger takes it as a function, so timestamps and reserved keys are not modelled.
- `valid_args?` is not part of this model. The arguments it rejects are one constructor, `Rejected`. An argument it might accept that is neither an Array nor a Hash is not modelled.
- `fail_result`, `success_result`, `LogResult` and `BasicDecorator` are not part of this model. Results are `Success` or `Failure(message)`.
- `EventTracer::LOG_TYPES` is not part of this model. The log types are taken as info, warn, error and debug. The `define_method` loops become a `LogType` parameter.
- The buffer's own implementation is not part of this model. Its contract is assumed as stated above, so any time-based flushing it may do is not captured. Concurrent use of a buffer is left out as well.
- `CleanEmptyValues` returns a cleaned copy instead of deleting keys in place. A nested Hash shared between records, which in-place deletion would change for every holder, is not modelled.
- `Wrap` models three argument shapes: a Hash, a list of Hashes, and nil. The logger only ever submits the first two. `Array(x)` of any other object, and list items that are not Hashes, are not modelled.
- `Val` has no floating-point numbers. Symbols and Strings are both plain strings, as keys and as metric names. So `args.slice` with allowed tags given as Strings against Symbol keyword keys, which Ruby would not match, is not distinguished.
- A Hash metrics argument is a sequence of entries in insertion order. Ruby's uniqueness of Hash keys is not enforced, and no property depends on it.
- An allowed tag named `metrics` would turn the metrics argument itself into a tag. The model keeps `metrics` apart from the other arguments, so this case is not captured.
- An entry whose payload is not a Hash makes `metric_payload[:type]` raise. This is not modelled.
- `DynamoDBLogger.Buffer.Add`: the flush point is an assumption about the buffer, which is not part of this model. A buffer that instead refuses the record that would fill it also conserves records with the same facade, but it flushes N records on the N-th call rather than N+1 records on the (N+1)-th. The model does not decide between the two.
