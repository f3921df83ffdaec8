/**
 * Values shared by the event tracer's loggers: the structured values that
 * log calls carry, the log types every logger answers to, and the result a
 * log call returns.
 */
module EventTracer {

  datatype Option<T> = None | Some(value: T)

  /**
   * A value as it appears in a log payload. `Obj` is a (nested) Hash;
   * `List` is an Array, whose elements are never looked into by the
   * sanitiser; `Nil` is Ruby's nil.
   */
  datatype Val =
    | Str(s: string)
    | Num(n: int)
    | Bool(b: bool)
    | Nil
    | List(items: seq<Val>)
    | Obj(fields: map<string, Val>)

  /** A log record: a Hash from field name to value. */
  type Record = map<string, Val>

  /** The log types for which every logger defines one method. */
  datatype LogType = Info | Warn | Error | Debug

  /** What a log call returns to its caller. */
  datatype LogResult = Success | Failure(message: string)
}
