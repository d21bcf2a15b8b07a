/**
 * `processRecord`: one record through payload extraction, query evaluation
 * and shape-directed re-encoding of the result.
 */
module Pipeline {
  import opened Types
  import opened Backends
  import opened Normalizer

  /** The fields of the Go `Processor` that record processing reads. */
  datatype ProcessorState = ProcessorState(
    config: ProcessorConfig,
    jmesCompiled: Option<JmesPath>,
    jqCompiled: Option<JqQuery>)

  /**
   * The compiled query that the configured type dispatches to is present;
   * without it the Go code dereferences a nil pointer.
   */
  predicate Ready(st: ProcessorState) {
    && (EngineFor(st.config.typ) == JmesPathEngine ==> st.jmesCompiled.Some?)
    && (EngineFor(st.config.typ) == JqEngine ==> st.jqCompiled.Some?)
  }

  /** The value tree the query runs on, taken from `Payload.After`. */
  function ExtractData(after: Payload, b: Backends): (r: Result<Data, Error>)
    ensures after.Absent? ==> r == Err(NoData)
    ensures after.Structured? ==> r.Ok? && Plain(r.value)
    ensures after.Structured? ==> r.value.Map? && r.value.fields.Keys == after.data.Keys
    ensures after.Raw? ==> (r.Ok? <==> b.unmarshal(after.bytes).Ok?)
    // the query runs on the normalized structured data, or on the decoded bytes
    ensures after.Structured? ==> r == Ok(Normalize(SData(after.data)))
    ensures after.Raw? ==>
      && (r.Ok? ==> r.value == b.unmarshal(after.bytes).value)
      && (r.Err? ==> r.error == JsonInvalid(b.unmarshal(after.bytes).error))
  {
    match after
    case Absent => Err(NoData)
    case Structured(m) => Ok(Normalize(SData(m)))
    case Raw(bytes) =>
      match b.unmarshal(bytes)
      case Ok(v) => Ok(v)
      case Err(e) => Err(JsonInvalid(e))
  }

  /** jq: only the first value of the iterator is pulled. */
  function FirstJqResult(iter: seq<JqValue>): (r: Result<Data, Error>)
    ensures r.Ok? <==> |iter| > 0 && iter[0].Emitted?
    ensures r.Ok? ==> r.value == iter[0].v
    ensures |iter| == 0 ==> r == Err(JqNoResults)
    ensures |iter| > 0 && iter[0].Raised? ==> r == Err(JqFailed(iter[0].reason))
  {
    if |iter| == 0 then Err(JqNoResults)
    else match iter[0]
      case Emitted(v) => Ok(v)
      case Raised(e) => Err(JqFailed(e))
  }

  /** Whatever follows the first value of a jq iterator has no effect. */
  lemma FirstJqResultIgnoresRest(first: JqValue, rest: seq<JqValue>)
    ensures FirstJqResult([first] + rest) == FirstJqResult([first])
  {
  }

  /**
   * Runs the configured query. A type that names neither engine runs no
   * query and leaves the result nil.
   */
  function Evaluate(st: ProcessorState, b: Backends, data: Data): (r: Result<Data, Error>)
    requires Ready(st)
    ensures EngineFor(st.config.typ) == NoEngine ==> r == Ok(Null)
    ensures EngineFor(st.config.typ) == JmesPathEngine ==>
      match b.jmesSearch(st.jmesCompiled.value, data)
      case Ok(v) => r == Ok(v)
      case Err(e) => r == Err(JmesPathFailed(e))
    ensures EngineFor(st.config.typ) == JqEngine ==>
      r == FirstJqResult(b.jqRun(st.jqCompiled.value, data))
  {
    match EngineFor(st.config.typ)
    case JmesPathEngine =>
      (match b.jmesSearch(st.jmesCompiled.value, data)
       case Ok(v) => Ok(v)
       case Err(e) => Err(JmesPathFailed(e)))
    case JqEngine => FirstJqResult(b.jqRun(st.jqCompiled.value, data))
    case NoEngine => Ok(Null)
  }

  /**
   * The new `Payload.After`, chosen by the result's shape: a plain map is
   * stored as structured data as it is, a list is wrapped under the single
   * key "result", and anything else is stored as its JSON encoding.
   */
  function EncodeResult(result: Data, marshal: Data -> Result<seq<byte>, string>): (r: Result<Payload, Error>)
    ensures r.Ok? ==> !r.value.Absent?
    ensures r.Ok? && r.value.Structured? <==> result.Map? || result.List?
    ensures result.Map? ==> r == Ok(Structured(result.fields))
    ensures result.List? ==> r.Ok? && r.value.data.Keys == {"result"} && r.value.data["result"] == result
    ensures !result.Map? && !result.List? ==>
      match marshal(result)
      case Ok(bytes) => r == Ok(Raw(bytes))
      case Err(e) => r == Err(MarshalFailed(e))
  {
    match result
    case Map(m) => Ok(Structured(m))
    case List(_) => Ok(Structured(map["result" := result]))
    case _ =>
      match marshal(result)
      case Ok(bytes) => Ok(Raw(bytes))
      case Err(e) => Err(MarshalFailed(e))
  }

  /** The record with only `Payload.After` replaced. */
  function WithAfter(rec: Record, after: Payload): (r: Record)
    ensures r.payload.after == after
    // everything else is copied from the input record
    ensures r.position == rec.position && r.operation == rec.operation
    ensures r.metadata == rec.metadata && r.key == rec.key
    ensures r.payload.before == rec.payload.before
  {
    rec.(payload := rec.payload.(after := after))
  }

  function ProcessRecord(st: ProcessorState, b: Backends, rec: Record): (r: Result<Record, Error>)
    requires Ready(st)
    // a missing payload and undecodable raw bytes are errors
    ensures rec.payload.after.Absent? ==> r == Err(NoData)
    ensures rec.payload.after.Raw? && b.unmarshal(rec.payload.after.bytes).Err? ==>
      r == Err(JsonInvalid(b.unmarshal(rec.payload.after.bytes).error))
    // the output is the input record with only Payload.After replaced, never by nil
    ensures r.Ok? ==> r.value == WithAfter(rec, r.value.payload.after)
    ensures r.Ok? ==> !r.value.payload.after.Absent?
  {
    var data :- ExtractData(rec.payload.after, b);
    var result :- Evaluate(st, b, data);
    var after :- EncodeResult(result, b.marshal);
    Ok(WithAfter(rec, after))
  }

  /** The three stages compose: a record succeeds exactly when each stage does. */
  lemma ProcessRecordStages(st: ProcessorState, b: Backends, rec: Record)
    requires Ready(st)
    ensures ProcessRecord(st, b, rec).Ok? <==>
      && ExtractData(rec.payload.after, b).Ok?
      && Evaluate(st, b, ExtractData(rec.payload.after, b).value).Ok?
      && EncodeResult(Evaluate(st, b, ExtractData(rec.payload.after, b).value).value, b.marshal).Ok?
    ensures ProcessRecord(st, b, rec).Ok? ==>
      ProcessRecord(st, b, rec).value.payload.after ==
        EncodeResult(Evaluate(st, b, ExtractData(rec.payload.after, b).value).value, b.marshal).value
  {
  }

  /**
   * Encoding a plain map result and extracting the payload again gives back
   * the same map: the encoder and the normalizer are inverse on maps.
   */
  lemma MapResultRoundTrip(m: map<string, Data>, b: Backends)
    requires Plain(Map(m))
    ensures EncodeResult(Map(m), b.marshal) == Ok(Structured(m))
    ensures ExtractData(Structured(m), b) == Ok(Map(m))
  {
    NormalizeFixesPlain(Map(m));
    assert Normalize(SData(m)) == Normalize(Map(m));
  }

  /** A list result comes back from its payload as a map holding it under "result". */
  lemma ListResultRoundTrip(xs: seq<Data>, b: Backends)
    requires Plain(List(xs))
    ensures EncodeResult(List(xs), b.marshal).Ok?
    ensures ExtractData(EncodeResult(List(xs), b.marshal).value, b) == Ok(Map(map["result" := List(xs)]))
  {
    NormalizeFixesPlain(List(xs));
    var m := map["result" := List(xs)];
    assert Normalize(SData(m)).fields == m;
  }

  /**
   * The list wrapping is not injective: a list result and a map result
   * binding "result" to that list give the same payload.
   */
  lemma ListWrapCollides(xs: seq<Data>, marshal: Data -> Result<seq<byte>, string>)
    ensures EncodeResult(List(xs), marshal) == EncodeResult(Map(map["result" := List(xs)]), marshal)
  {
  }
}
