/**
 * The buffered logger in front of the DynamoDB worker. Every log call
 * builds one payload and either keeps it in the buffer or submits a job:
 * without a buffer the payload alone, and with a buffer that refuses it
 * everything the buffer held followed by the payload.
 *
 * Job submission (`perform_async`) appends to the logger's `jobs`. The
 * ghost field `logged` holds every payload built so far, in call order;
 * the logger's invariant is that the submitted jobs, put end to end and
 * followed by what the buffer still holds, are exactly `logged`.
 */
module DynamoDBLogger {
  import opened EventTracer
  import opened DynamoDBLogWorker

  /**
   * The buffer the logger may be given. `Add` keeps the record and answers
   * true while fewer than `capacity` records are pending; otherwise it
   * leaves the buffer as it is and answers false. A capacity of 0 therefore
   * refuses every record. `Flush` hands back the pending records and
   * empties the buffer.
   */
  class Buffer {
    const capacity: nat
    var pending: seq<Record>

    ghost predicate Valid()
      reads this
    {
      |pending| <= capacity
    }

    constructor (capacity: nat)
      ensures Valid()
      ensures this.capacity == capacity && pending == []
    {
      this.capacity := capacity;
      pending := [];
    }

    method Add(record: Record) returns (accepted: bool)
      requires Valid()
      modifies this
      ensures Valid()
      ensures accepted <==> old(|pending|) < capacity
      ensures pending == if accepted then old(pending) + [record] else old(pending)
    {
      accepted := |pending| < capacity;
      if accepted {
        pending := pending + [record];
      }
    }

    method Flush() returns (records: seq<Record>)
      requires Valid()
      modifies this
      ensures Valid()
      ensures records == old(pending) && pending == []
    {
      records := pending;
      pending := [];
    }
  }

  /** The records a sequence of jobs carries, in submission order, as the worker normalises each job. */
  function JobRecords(jobs: seq<Payload>): seq<Record>
  {
    if jobs == [] then [] else JobRecords(jobs[..|jobs| - 1]) + Wrap(jobs[|jobs| - 1])
  }

  lemma JobRecordsAppend(jobs: seq<Payload>, job: Payload)
    ensures JobRecords(jobs + [job]) == JobRecords(jobs) + Wrap(job)
  {
  }

  /**
   * Builds a log record from the log type, action, message and remaining
   * keyword arguments (`prepare_payload`, which is not part of this model
   * and is taken as given).
   */
  type PreparePayload = (LogType, string, Val, map<string, Val>) -> Record

  class DynamoDBLogger {
    const buffer: Buffer?
    const preparePayload: PreparePayload
    var jobs: seq<Payload>
    ghost var logged: seq<Record>

    /** What the buffer still holds (nothing when there is no buffer). */
    ghost function Pending(): seq<Record>
      reads this, buffer
    {
      if buffer == null then [] else buffer.pending
    }

    /** Conservation: each payload built so far is in exactly one place, in call order. */
    ghost predicate Valid()
      reads this, buffer
    {
      && (buffer != null ==> buffer.Valid())
      && JobRecords(jobs) + Pending() == logged
    }

    constructor (buffer: Buffer?, preparePayload: PreparePayload)
      requires buffer != null ==> buffer.Valid()
      ensures Valid()
      ensures this.buffer == buffer && this.preparePayload == preparePayload
      ensures jobs == [] && logged == Pending()
    {
      this.buffer := buffer;
      this.preparePayload := preparePayload;
      jobs := [];
      logged := if buffer == null then [] else buffer.pending;
    }

    /**
     * `save_message`, which the method of each log type calls with its own
     * log type. It builds the payload; without a buffer it submits the
     * payload alone; with a buffer that accepts it nothing is submitted;
     * with a buffer that refuses it the flushed records followed by the
     * payload are submitted as one job and the buffer is left empty. It
     * always reports success.
     */
    method SaveMessage(logType: LogType, action: string, message: Val, args: map<string, Val>)
      returns (result: LogResult)
      requires Valid()
      modifies this, buffer
      ensures Valid()
      ensures result == Success
      ensures logged == old(logged) + [preparePayload(logType, action, message, args)]
      ensures buffer == null ==>
        jobs == old(jobs) + [One(preparePayload(logType, action, message, args))]
      ensures buffer != null && old(|buffer.pending|) < buffer.capacity ==>
        && jobs == old(jobs)
        && buffer.pending == old(buffer.pending) + [preparePayload(logType, action, message, args)]
      ensures buffer != null && old(|buffer.pending|) >= buffer.capacity ==>
        && jobs == old(jobs) + [Many(old(buffer.pending) + [preparePayload(logType, action, message, args)])]
        && buffer.pending == []
    {
      var payload := preparePayload(logType, action, message, args);
      if buffer != null {
        var accepted := buffer.Add(payload);
        if !accepted {
          var flushed := buffer.Flush();
          var allPayloads := flushed + [payload];
          JobRecordsAppend(jobs, Many(allPayloads));
          jobs := jobs + [Many(allPayloads)];
        }
      } else {
        JobRecordsAppend(jobs, One(payload));
        jobs := jobs + [One(payload)];
      }
      logged := logged + [payload];
      result := Success;
    }
  }

  /** A record naming only the action, standing in for `prepare_payload` in the scenarios below. */
  function ActionOnly(logType: LogType, action: string, message: Val, args: map<string, Val>): Record
  {
    map["action" := Str(action)]
  }

  /**
   * Without a buffer, two log calls submit two jobs, each the single
   * record of its call.
   */
  method UnbufferedScenario() returns (jobs: seq<Payload>)
    ensures jobs == [One(map["action" := Str("a")]), One(map["action" := Str("b")])]
  {
    var logger := new DynamoDBLogger(null, ActionOnly);
    var r := logger.SaveMessage(Info, "a", Nil, map[]);
    r := logger.SaveMessage(Warn, "b", Nil, map[]);
    jobs := logger.jobs;
  }

  /**
   * With a buffer of capacity 2, the first two calls only buffer; the third
   * submits one job with all three records and leaves the buffer empty; a
   * fourth call is buffered again.
   */
  method BufferedScenario() returns (jobs: seq<Payload>, pending: seq<Record>)
    ensures jobs == [Many([map["action" := Str("a")], map["action" := Str("b")], map["action" := Str("c")]])]
    ensures pending == [map["action" := Str("d")]]
  {
    var buffer := new Buffer(2);
    var logger := new DynamoDBLogger(buffer, ActionOnly);
    var a, b, c := map["action" := Str("a")], map["action" := Str("b")], map["action" := Str("c")];
    var r := logger.SaveMessage(Info, "a", Nil, map[]);
    assert [] + [a] == [a] && [a] + [b] == [a, b];
    r := logger.SaveMessage(Info, "b", Nil, map[]);
    assert buffer.pending == [a, b] && logger.jobs == [];
    assert [a, b] + [c] == [a, b, c];
    r := logger.SaveMessage(Info, "c", Nil, map[]);
    assert logger.jobs == [Many([a, b, c])] && buffer.pending == [];
    assert [] + [map["action" := Str("d")]] == [map["action" := Str("d")]];
    r := logger.SaveMessage(Info, "d", Nil, map[]);
    jobs, pending := logger.jobs, buffer.pending;
  }

  /**
   * With a buffer of capacity 0, every call submits a job at once: a
   * one-record list, since the (empty) flushed buffer comes first.
   */
  method ZeroCapacityScenario() returns (jobs: seq<Payload>)
    ensures jobs == [Many([map["action" := Str("a")]]), Many([map["action" := Str("b")]])]
  {
    var buffer := new Buffer(0);
    var logger := new DynamoDBLogger(buffer, ActionOnly);
    var a, b := map["action" := Str("a")], map["action" := Str("b")];
    assert [] + [a] == [a] && [] + [b] == [b];
    var r := logger.SaveMessage(Debug, "a", Nil, map[]);
    r := logger.SaveMessage(Error, "b", Nil, map[]);
    jobs := logger.jobs;
  }
}
