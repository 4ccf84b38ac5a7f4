/**
 * The time-series points the commands write, the sink that receives them,
 * and the value coercion shared by the events and refresh-states builders.
 */
module Points {
  import opened Values

  /** An InfluxDB point: measurement, optional main value, tags, fields, Unix-seconds timestamp. */
  datatype Point = Point(measurement: string, value: Option<Value>, tags: Record, fields: Record, timestamp: int)

  /** The InfluxDB database: every `writePoints` call delivers one batch. */
  class Sink {
    var written: seq<seq<Point>>

    constructor()
      ensures written == []
    {
      written := [];
    }

    method WritePoints(points: seq<Point>)
      modifies this
      ensures written == old(written) + [points]
    {
      written := written + [points];
    }
  }

  /** A value PHP's `=== true` / `=== "true"` (or false) tests pick out. */
  predicate IsBoolLike(v: Value) {
    v == Bool(true) || v == Str("true") || v == Bool(false) || v == Str("false")
  }

  /**
   * `fixValue` / `getFieldValue`: true and "true" become 1.0, false and
   * "false" become 0.0, every other value passes through.
   */
  function Coerce(v: Value): (r: Value)
    ensures !IsBoolLike(r)
    ensures !IsBoolLike(v) ==> r == v
    ensures v == Bool(true) || v == Str("true") ==> r == Float(1.0)
    ensures v == Bool(false) || v == Str("false") ==> r == Float(0.0)
  {
    if v == Str("true") || v == Bool(true) then Float(1.0)
    else if v == Str("false") || v == Bool(false) then Float(0.0)
    else v
  }

  /** Coercing twice changes nothing more. */
  lemma CoerceIdempotent(v: Value)
    ensures Coerce(Coerce(v)) == Coerce(v)
  {
  }
}
