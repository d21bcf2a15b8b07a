/** Values, payloads, records and errors of the json.query processor. */
module Types {

  newtype byte = x: int | 0 <= x < 256

  datatype Option<+T> = None | Some(value: T)

  /** Success or failure; usable with `:-`. */
  datatype Result<+T, +E> = Ok(value: T) | Err(error: E) {
    predicate IsFailure() { Err? }

    function PropagateFailure<U>(): Result<U, E>
      requires Err?
    {
      Err(error)
    }

    function Extract(): T
      requires Ok?
    {
      value
    }
  }

  /**
   * The dynamic value tree the processor handles (Go's `interface{}`):
   * JSON scalars, lists (`[]interface{}`), plain maps
   * (`map[string]interface{}`) and maps tagged as `opencdc.StructuredData`,
   * which Go's type switch tells apart from plain maps.
   * Numbers are opaque: only the text of the literal is kept.
   */
  datatype Data =
    | Null
    | Bool(b: bool)
    | Num(literal: string)
    | Str(s: string)
    | List(items: seq<Data>)
    | Map(fields: map<string, Data>)
    | SData(fields: map<string, Data>)

  predicate IsScalar(d: Data) {
    d.Null? || d.Bool? || d.Num? || d.Str?
  }

  /** No node of `d` carries the `StructuredData` tag. */
  predicate Plain(d: Data)
    decreases d
  {
    match d
    case SData(_) => false
    case List(xs) => forall i :: 0 <= i < |xs| ==> Plain(xs[i])
    case Map(m) => forall k :: k in m ==> Plain(m[k])
    case _ => true
  }

  /** `Payload.After` of a record: nil, structured data or raw bytes. */
  datatype Payload =
    | Absent
    | Structured(data: map<string, Data>)
    | Raw(bytes: seq<byte>)

  datatype Operation = Create | Update | Delete | Snapshot

  datatype Change = Change(before: Payload, after: Payload)

  /** An OpenCDC record; `key` uses the same data representation as a payload. */
  datatype Record = Record(
    position: seq<byte>,
    operation: Operation,
    metadata: map<string, string>,
    key: Payload,
    payload: Change)

  /** The two configuration options, as parsed. */
  datatype ProcessorConfig = ProcessorConfig(typ: string, query: string)

  /** Every error the processor returns, one constructor per error path. */
  datatype Error =
    | ConfigInvalid(reason: string)      // "failed to parse config"
    | JmesPathInvalid(reason: string)    // "invalid JMESPath expression"
    | JqInvalid(reason: string)          // "invalid jq expression"
    | UnsupportedType(typ: string)       // "unsupported query type"
    | JsonInvalid(reason: string)        // "invalid JSON payload"
    | NoData                             // "no data in record.Payload.After"
    | JmesPathFailed(reason: string)     // "JMESPath query failed"
    | JqNoResults                        // "jq query produced no results"
    | JqFailed(reason: string)           // "jq query failed"
    | MarshalFailed(reason: string)      // "failed to marshal result"
}
