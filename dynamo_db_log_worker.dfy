/**
 * The background job that persists log records in DynamoDB. It normalises
 * the job's argument to a list, splits the list into batches of at most 25
 * records, strips empty strings from every record of a batch and issues one
 * `batch_write_item` per batch. A service error on one batch is reported to
 * the error logger and does not stop the later batches.
 *
 * The DynamoDB client is an oracle: `failures` maps the index of a batch
 * to the service error its write raises; a batch whose index is absent is
 * written successfully. What the job does is returned as a trace of events.
 */
module DynamoDBLogWorker {
  import opened EventTracer

  /** The most put requests one `batch_write_item` call accepts. */
  const MaxItemsPerRequest: nat := 25

  /** The action under which a failed write is reported. */
  const ErrorAction: string := "DynamoDBLogWorker"

  /** The job's argument: a single record (unbuffered logger), a list of records (a flushed buffer), or nil. */
  datatype Payload = One(record: Record) | Many(records: seq<Record>) | Absent

  /** The table the records go to and the application name used in error reports. */
  datatype Config = Config(tableName: string, appName: string)

  datatype PutRequest = PutRequest(item: Record)

  datatype ServiceError = ServiceError(errorClass: string, message: string)

  /** What the job does, in order: the writes it issues and the errors it reports. */
  datatype Event =
    | BatchWriteItem(table: string, requests: seq<PutRequest>)
    | ErrorLogged(loggers: seq<string>, action: string, app: string, error: string, message: string)

  // ---------------------------------------------------------------------
  // Normalisation

  /** A single Hash becomes a one-element list; a list passes through; nil becomes empty. */
  function Wrap(items: Payload): (list: seq<Record>)
    ensures items.One? ==> list == [items.record]
    ensures items.Many? ==> list == items.records
    ensures items.Absent? ==> list == []
  {
    match items
    case One(r) => [r]
    case Many(rs) => rs
    case Absent => []
  }

  // ---------------------------------------------------------------------
  // Slicing

  function Flatten<T>(chunks: seq<seq<T>>): seq<T>
  {
    if chunks == [] then [] else chunks[0] + Flatten(chunks[1..])
  }

  /**
   * Ruby's `each_slice(size)`: consecutive chunks that put back together
   * give the input; each holds between 1 and `size` elements and all but
   * the last hold exactly `size`.
   */
  function EachSlice<T>(s: seq<T>, size: nat): (chunks: seq<seq<T>>)
    requires size > 0
    ensures Flatten(chunks) == s
    ensures forall i :: 0 <= i < |chunks| ==> 0 < |chunks[i]| <= size
    ensures forall i :: 0 <= i < |chunks| - 1 ==> |chunks[i]| == size
    decreases |s|
  {
    if s == [] then []
    else if |s| <= size then [s]
    else
      var rest := EachSlice(s[size..], size);
      assert Flatten([s[..size]] + rest) == s[..size] + Flatten(rest);
      assert s[..size] + s[size..] == s;
      [s[..size]] + rest
  }

  /** The batches a job is written in. */
  function Batches(items: Payload): seq<seq<Record>>
  {
    EachSlice(Wrap(items), MaxItemsPerRequest)
  }

  /** There are ceil(n / 25) batches for n records. */
  lemma {:induction false} BatchCount(s: seq<Record>)
    ensures |EachSlice(s, MaxItemsPerRequest)| == (|s| + MaxItemsPerRequest - 1) / MaxItemsPerRequest
    decreases |s|
  {
    if |s| > MaxItemsPerRequest {
      BatchCount(s[MaxItemsPerRequest..]);
    }
  }

  // ---------------------------------------------------------------------
  // Sanitising

  predicate IsEmptyString(v: Val)
  {
    v.Str? && v.s == ""
  }

  /** A value after cleaning: Hashes are cleaned, everything else is kept as it is. */
  function CleanVal(v: Val): Val
    decreases v, 1
  {
    match v
    case Obj(fields) => Obj(CleanFields(fields))
    case _ => v
  }

  /** `clean_empty_values` on a Hash, as a value. */
  function CleanFields(m: map<string, Val>): map<string, Val>
    decreases Obj(m), 0
  {
    map k | k in m && !IsEmptyString(m[k]) :: CleanVal(m[k])
  }

  /** No empty string is left at any nesting depth of Hashes. */
  ghost predicate NoEmptyStrings(m: map<string, Val>)
    decreases Obj(m), 0
  {
    forall k :: k in m ==> !IsEmptyString(m[k]) && (m[k].Obj? ==> NoEmptyStrings(m[k].fields))
  }

  /**
   * `r` is `m` with some empty-string fields removed, at any depth, and
   * nothing else changed: nested Hashes stay Hashes, other values are equal.
   */
  ghost predicate OnlyEmptyStringsRemoved(m: map<string, Val>, r: map<string, Val>)
    decreases Obj(m), 0
  {
    && r.Keys <= m.Keys
    && (forall k :: k in m && k !in r ==> IsEmptyString(m[k]))
    && (forall k :: k in r ==> KeptAs(m[k], r[k]))
  }

  ghost predicate KeptAs(v: Val, w: Val)
    decreases v, 1
  {
    if v.Obj? then w.Obj? && OnlyEmptyStringsRemoved(v.fields, w.fields) else w == v
  }

  /** Cleaning removes empty strings only, and all of them. */
  lemma {:induction false} CleanIsSound(m: map<string, Val>)
    ensures NoEmptyStrings(CleanFields(m))
    ensures OnlyEmptyStringsRemoved(m, CleanFields(m))
    decreases Obj(m)
  {
    var r := CleanFields(m);
    forall k | k in r
      ensures !IsEmptyString(r[k]) && (r[k].Obj? ==> NoEmptyStrings(r[k].fields))
      ensures KeptAs(m[k], r[k])
    {
      if m[k].Obj? {
        CleanIsSound(m[k].fields);
      }
    }
  }

  /**
   * The two properties determine the result: any Hash obtained from `m` by
   * removing only empty strings, and left with none, is `CleanFields(m)`.
   */
  lemma {:induction false} CleanIsUnique(m: map<string, Val>, r: map<string, Val>)
    requires NoEmptyStrings(r)
    requires OnlyEmptyStringsRemoved(m, r)
    ensures r == CleanFields(m)
    decreases Obj(m)
  {
    var c := CleanFields(m);
    forall k | k in r
      ensures k in c && r[k] == c[k]
    {
      assert k in m && KeptAs(m[k], r[k]) && !IsEmptyString(r[k]);
      if m[k].Obj? {
        assert r[k].Obj? && OnlyEmptyStringsRemoved(m[k].fields, r[k].fields);
        assert NoEmptyStrings(r[k].fields);
        CleanIsUnique(m[k].fields, r[k].fields);
        assert r[k] == Obj(CleanFields(m[k].fields)) == CleanVal(m[k]);
      } else {
        assert r[k] == m[k] == CleanVal(m[k]);
      }
    }
    forall k | k in c
      ensures k in r
    {
      assert k in m && !IsEmptyString(m[k]);
    }
    assert r.Keys == c.Keys;
  }

  /** A Hash with no empty strings left is not changed by cleaning. */
  lemma {:induction false} CleanFixesClean(m: map<string, Val>)
    requires NoEmptyStrings(m)
    ensures CleanFields(m) == m
    decreases Obj(m)
  {
    forall k | k in m
      ensures CleanVal(m[k]) == m[k]
    {
      if m[k].Obj? {
        CleanFixesClean(m[k].fields);
      }
    }
  }

  /** Cleaning twice is cleaning once. */
  lemma CleanIsIdempotent(m: map<string, Val>)
    ensures CleanFields(CleanFields(m)) == CleanFields(m)
  {
    CleanIsSound(m);
    CleanFixesClean(CleanFields(m));
  }

  /**
   * At the top level: a key is kept exactly when its value is not an empty
   * string; nested Hashes are kept as Hashes (even when cleaning leaves them
   * empty), and every value that is neither a String nor a Hash is unchanged.
   */
  lemma CleanKeepsAllButEmptyStrings(m: map<string, Val>)
    ensures forall k :: k in CleanFields(m) <==> k in m && !IsEmptyString(m[k])
    ensures forall k :: k in m && m[k].Obj? ==> k in CleanFields(m) && CleanFields(m)[k] == Obj(CleanFields(m[k].fields))
    ensures forall k :: k in m && !m[k].Obj? && !IsEmptyString(m[k]) ==> CleanFields(m)[k] == m[k]
  {
  }

  /**
   * `clean_empty_values`: visits every key, drops the ones holding an empty
   * string, cleans nested Hashes (keeping them) and leaves other values.
   */
  method CleanEmptyValues(data: map<string, Val>) returns (cleaned: map<string, Val>)
    ensures cleaned == CleanFields(data)
    decreases Obj(data)
  {
    cleaned := data;
    var unvisited := data.Keys;
    while unvisited != {}
      invariant unvisited <= data.Keys
      invariant cleaned.Keys <= data.Keys
      invariant forall k :: k in unvisited ==> k in cleaned && cleaned[k] == data[k]
      invariant forall k :: k in data && k !in unvisited ==>
        (k in cleaned <==> !IsEmptyString(data[k])) && (k in cleaned ==> cleaned[k] == CleanVal(data[k]))
      decreases unvisited
    {
      var key :| key in unvisited;
      match data[key] {
        case Obj(nested) =>
          var c := CleanEmptyValues(nested);
          cleaned := cleaned[key := Obj(c)];
        case Str(s) =>
          if s == "" {
            cleaned := cleaned - {key};
          }
        case _ =>
      }
      unvisited := unvisited - {key};
    }
    assert cleaned.Keys == CleanFields(data).Keys;
  }

  // ---------------------------------------------------------------------
  // The job

  /** The put requests of a batch's write, built one record at a time. */
  function PutRequests(batch: seq<Record>): seq<PutRequest>
  {
    if batch == [] then []
    else PutRequests(batch[..|batch| - 1]) + [PutRequest(CleanFields(batch[|batch| - 1]))]
  }

  /** A batch's write carries one put request per record, in order, each record cleaned. */
  lemma {:induction false} PutRequestPerRecord(batch: seq<Record>)
    ensures |PutRequests(batch)| == |batch|
    ensures forall i :: 0 <= i < |batch| ==> PutRequests(batch)[i] == PutRequest(CleanFields(batch[i]))
  {
    if batch != [] {
      PutRequestPerRecord(batch[..|batch| - 1]);
    }
  }

  /** The entry the error logger receives for a failed write. */
  function ErrorReport(cfg: Config, e: ServiceError): Event
  {
    ErrorLogged(["base"], ErrorAction, cfg.appName, e.errorClass, e.message)
  }

  /** What handling batch `index` emits: its write and, if the write raised, one error report. */
  function BatchEvents(cfg: Config, batch: seq<Record>, index: nat, failures: map<nat, ServiceError>): seq<Event>
  {
    [BatchWriteItem(cfg.tableName, PutRequests(batch))]
    + (if index in failures then [ErrorReport(cfg, failures[index])] else [])
  }

  /** The events of the first `n` batches. */
  function TraceUpTo(cfg: Config, batches: seq<seq<Record>>, failures: map<nat, ServiceError>, n: nat): seq<Event>
    requires n <= |batches|
  {
    if n == 0 then []
    else TraceUpTo(cfg, batches, failures, n - 1) + BatchEvents(cfg, batches[n - 1], n - 1, failures)
  }

  /** The events of the whole job. */
  function PerformTrace(cfg: Config, items: Payload, failures: map<nat, ServiceError>): seq<Event>
  {
    var batches := Batches(items);
    TraceUpTo(cfg, batches, failures, |batches|)
  }

  /** The `batch.map` block: one put request per record, each record cleaned first. */
  method BuildPutRequests(batch: seq<Record>) returns (data: seq<PutRequest>)
    ensures data == PutRequests(batch)
  {
    data := [];
    for j := 0 to |batch|
      invariant data == PutRequests(batch[..j])
    {
      var item := CleanEmptyValues(batch[j]);
      assert batch[..j + 1][..j] == batch[..j];
      data := data + [PutRequest(item)];
    }
    assert batch[..|batch|] == batch;
  }

  /** `perform`: one write per batch; the rescue sits inside the loop body. */
  method Perform(cfg: Config, items: Payload, failures: map<nat, ServiceError>) returns (trace: seq<Event>)
    ensures trace == PerformTrace(cfg, items, failures)
  {
    var batches := EachSlice(Wrap(items), MaxItemsPerRequest);
    trace := [];
    for i := 0 to |batches|
      invariant trace == TraceUpTo(cfg, batches, failures, i)
    {
      var data := BuildPutRequests(batches[i]);
      var events := [BatchWriteItem(cfg.tableName, data)];
      if i in failures {
        // rescue Aws::DynamoDB::Errors::ServiceError => e
        var e := failures[i];
        events := events + [ErrorLogged(["base"], ErrorAction, cfg.appName, e.errorClass, e.message)];
      }
      assert events == BatchEvents(cfg, batches[i], i, failures);
      trace := trace + events;
    }
  }

  // ---------------------------------------------------------------------
  // Properties of the job's trace

  function Writes(t: seq<Event>): seq<Event>
  {
    if t == [] then [] else Writes(t[..|t| - 1]) + (if t[|t| - 1].BatchWriteItem? then [t[|t| - 1]] else [])
  }

  function Errors(t: seq<Event>): seq<Event>
  {
    if t == [] then [] else Errors(t[..|t| - 1]) + (if t[|t| - 1].ErrorLogged? then [t[|t| - 1]] else [])
  }

  lemma {:induction false} SplitEvents(a: seq<Event>, b: seq<Event>)
    ensures Writes(a + b) == Writes(a) + Writes(b)
    ensures Errors(a + b) == Errors(a) + Errors(b)
    decreases |b|
  {
    if b != [] {
      var b' := b[..|b| - 1];
      assert (a + b)[..|a + b| - 1] == a + b';
      SplitEvents(a, b');
    } else {
      assert a + b == a;
    }
  }

  /** The indices, below `n`, of the batches whose write raises. */
  function FailingBatches(failures: map<nat, ServiceError>, n: nat): set<nat>
  {
    set i | i in failures && i < n
  }

  /** How many of the first `n` batches fail, counted one batch at a time. */
  function FailingCount(failures: map<nat, ServiceError>, n: nat): nat
  {
    if n == 0 then 0 else FailingCount(failures, n - 1) + if n - 1 in failures then 1 else 0
  }

  lemma {:induction false} FailingCountIsSize(failures: map<nat, ServiceError>, n: nat)
    ensures FailingCount(failures, n) == |FailingBatches(failures, n)|
  {
    if n > 0 {
      FailingCountIsSize(failures, n - 1);
      if n - 1 in failures {
        assert FailingBatches(failures, n) == FailingBatches(failures, n - 1) + {n - 1};
      } else {
        assert FailingBatches(failures, n) == FailingBatches(failures, n - 1);
      }
    }
  }

  lemma OneEvent(e: Event)
    ensures Writes([e]) == if e.BatchWriteItem? then [e] else []
    ensures Errors([e]) == if e.ErrorLogged? then [e] else []
  {
  }

  /** Handling one batch emits its write and, if the write raised, one error report. */
  lemma EventsOfOneBatch(cfg: Config, batch: seq<Record>, index: nat, failures: map<nat, ServiceError>)
    ensures Writes(BatchEvents(cfg, batch, index, failures)) == [BatchWriteItem(cfg.tableName, PutRequests(batch))]
    ensures Errors(BatchEvents(cfg, batch, index, failures))
      == if index in failures then [ErrorReport(cfg, failures[index])] else []
  {
    var w := BatchWriteItem(cfg.tableName, PutRequests(batch));
    OneEvent(w);
    if index in failures {
      var r := ErrorReport(cfg, failures[index]);
      SplitEvents([w], [r]);
      OneEvent(r);
    }
  }

  /** Adding batch `n - 1` adds its write to the writes and its error report, if it failed, to the errors. */
  lemma TraceStep(cfg: Config, batches: seq<seq<Record>>, failures: map<nat, ServiceError>, n: nat)
    requires 0 < n <= |batches|
    ensures Writes(TraceUpTo(cfg, batches, failures, n))
      == Writes(TraceUpTo(cfg, batches, failures, n - 1)) + [BatchWriteItem(cfg.tableName, PutRequests(batches[n - 1]))]
    ensures Errors(TraceUpTo(cfg, batches, failures, n))
      == Errors(TraceUpTo(cfg, batches, failures, n - 1))
         + if n - 1 in failures then [ErrorReport(cfg, failures[n - 1])] else []
  {
    var prev := TraceUpTo(cfg, batches, failures, n - 1);
    var here := BatchEvents(cfg, batches[n - 1], n - 1, failures);
    assert TraceUpTo(cfg, batches, failures, n) == prev + here;
    SplitEvents(prev, here);
    EventsOfOneBatch(cfg, batches[n - 1], n - 1, failures);
  }

  /** The writes of the first `n` batches, one per batch, in order. */
  function BatchWrites(cfg: Config, batches: seq<seq<Record>>, n: nat): seq<Event>
    requires n <= |batches|
  {
    if n == 0 then [] else BatchWrites(cfg, batches, n - 1) + [BatchWriteItem(cfg.tableName, PutRequests(batches[n - 1]))]
  }

  /** The error reports of the first `n` batches, one per failing write, in order. */
  function Reports(cfg: Config, failures: map<nat, ServiceError>, n: nat): seq<Event>
  {
    if n == 0 then []
    else Reports(cfg, failures, n - 1) + if n - 1 in failures then [ErrorReport(cfg, failures[n - 1])] else []
  }

  /** The first `n` batches write each batch once, in order. */
  lemma {:induction false} WritesUpTo(cfg: Config, batches: seq<seq<Record>>, failures: map<nat, ServiceError>, n: nat)
    requires n <= |batches|
    ensures Writes(TraceUpTo(cfg, batches, failures, n)) == BatchWrites(cfg, batches, n)
  {
    if n > 0 {
      WritesUpTo(cfg, batches, failures, n - 1);
      TraceStep(cfg, batches, failures, n);
    }
  }

  /** The first `n` batches report each failing write once, in order. */
  lemma {:induction false} ErrorsUpTo(cfg: Config, batches: seq<seq<Record>>, failures: map<nat, ServiceError>, n: nat)
    requires n <= |batches|
    ensures Errors(TraceUpTo(cfg, batches, failures, n)) == Reports(cfg, failures, n)
  {
    if n > 0 {
      ErrorsUpTo(cfg, batches, failures, n - 1);
      TraceStep(cfg, batches, failures, n);
    }
  }

  lemma {:induction false} BatchWritesInOrder(cfg: Config, batches: seq<seq<Record>>, n: nat)
    requires n <= |batches|
    ensures |BatchWrites(cfg, batches, n)| == n
    ensures forall i :: 0 <= i < n ==>
      BatchWrites(cfg, batches, n)[i] == BatchWriteItem(cfg.tableName, PutRequests(batches[i]))
  {
    if n > 0 {
      BatchWritesInOrder(cfg, batches, n - 1);
    }
  }

  lemma {:induction false} ReportCount(cfg: Config, failures: map<nat, ServiceError>, n: nat)
    ensures |Reports(cfg, failures, n)| == FailingCount(failures, n)
  {
    if n > 0 {
      ReportCount(cfg, failures, n - 1);
    }
  }

  lemma {:induction false} ReportsAreFromWorker(cfg: Config, failures: map<nat, ServiceError>, n: nat)
    ensures forall x :: x in Reports(cfg, failures, n) ==>
      x.ErrorLogged? && x.action == ErrorAction && x.loggers == ["base"] && x.app == cfg.appName
  {
    if n > 0 {
      ReportsAreFromWorker(cfg, failures, n - 1);
    }
  }

  lemma {:induction false} ReportsOfOneFailure(cfg: Config, index: nat, e: ServiceError, n: nat)
    ensures Reports(cfg, map[index := e], n) == if index < n then [ErrorReport(cfg, e)] else []
  {
    if n > 0 {
      ReportsOfOneFailure(cfg, index, e, n - 1);
      if n - 1 == index {
        assert Reports(cfg, map[index := e], n - 1) == [];
      }
    }
  }

  /**
   * Every batch is written, in order, one put request per record under the
   * configured table, whatever the other batches' writes do; there are
   * ceil(n / 25) writes for n records; and the error reports are one per
   * failing write, in batch order, each naming that write's error class and
   * message under the action 'DynamoDBLogWorker'.
   */
  lemma PerformWritesEveryBatch(cfg: Config, items: Payload, failures: map<nat, ServiceError>)
    ensures var w := Writes(PerformTrace(cfg, items, failures));
      && |w| == |Batches(items)| == (|Wrap(items)| + MaxItemsPerRequest - 1) / MaxItemsPerRequest
      && forall i :: 0 <= i < |w| ==> w[i] == BatchWriteItem(cfg.tableName, PutRequests(Batches(items)[i]))
    ensures var e := Errors(PerformTrace(cfg, items, failures));
      && |e| == |FailingBatches(failures, |Batches(items)|)|
      && forall x :: x in e ==> x.ErrorLogged? && x.action == ErrorAction && x.loggers == ["base"] && x.app == cfg.appName
    ensures Errors(PerformTrace(cfg, items, failures)) == Reports(cfg, failures, |Batches(items)|)
  {
    var batches := Batches(items);
    WritesUpTo(cfg, batches, failures, |batches|);
    ErrorsUpTo(cfg, batches, failures, |batches|);
    BatchWritesInOrder(cfg, batches, |batches|);
    ReportCount(cfg, failures, |batches|);
    FailingCountIsSize(failures, |batches|);
    ReportsAreFromWorker(cfg, failures, |batches|);
    BatchCount(Wrap(items));
  }

  /** The writes a job issues do not depend on which of them fail. */
  lemma WritesIgnoreFailures(cfg: Config, items: Payload, failures: map<nat, ServiceError>)
    ensures Writes(PerformTrace(cfg, items, failures)) == Writes(PerformTrace(cfg, items, map[]))
  {
    PerformWritesEveryBatch(cfg, items, failures);
    PerformWritesEveryBatch(cfg, items, map[]);
  }

  /**
   * A service error on one batch's write yields exactly one error report,
   * naming that error, and every batch, earlier or later, is still written.
   */
  lemma OneFailureIsIsolated(cfg: Config, items: Payload, index: nat, e: ServiceError)
    requires index < |Batches(items)|
    ensures Errors(PerformTrace(cfg, items, map[index := e])) == [ErrorReport(cfg, e)]
    ensures Writes(PerformTrace(cfg, items, map[index := e])) == Writes(PerformTrace(cfg, items, map[]))
  {
    WritesIgnoreFailures(cfg, items, map[index := e]);
    ErrorsUpTo(cfg, Batches(items), map[index := e], |Batches(items)|);
    ReportsOfOneFailure(cfg, index, e, |Batches(items)|);
  }
}
