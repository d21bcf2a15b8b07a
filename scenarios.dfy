/**
 * The processor's test scenarios, stated over any engines that give the
 * answers the scenario relies on.
 */
module Scenarios {
  import opened Types
  import opened Backends
  import opened Normalizer
  import opened Pipeline
  import opened Batch
  import Processor

  /** The bytes of an ASCII string. */
  function Ascii(s: string): (r: seq<byte>)
    ensures |r| == |s|
  {
    seq(|s|, i requires 0 <= i < |s| => (if s[i] as int < 256 then s[i] as int else 0) as byte)
  }

  /** A plain map binding two keys to strings. */
  function StringObject(k1: string, v1: string, k2: string, v2: string): Data {
    Map(map[k1 := Str(v1), k2 := Str(v2)])
  }

  /** A create record at the given position with the given `Payload.After` and nothing else set. */
  function RecordAt(position: string, after: Payload): Record {
    Record(Ascii(position), Create, map[], Absent, Change(Absent, after))
  }

  /** The structured payload of the JMESPath test: a user with a name and an email. */
  function UserInput(): map<string, Data> {
    map["user" := StringObject("name", "John Doe", "email", "john@example.com")]
  }

  /**
   * A new processor configured with JMESPath `user.name`, then given one
   * record holding a user: the record comes out with the raw bytes
   * `"John Doe"`, quotes included.
   */
  lemma JmesPathScalarBecomesRaw(b: Backends, cfg: map<string, string>)
    requires b.parseConfig(cfg) == Ok(ProcessorConfig("jmespath", "user.name"))
    requires b.jmesCompile("user.name").Ok?
    requires b.jmesSearch(b.jmesCompile("user.name").value, Map(UserInput())) == Ok(Str("John Doe"))
    requires b.marshal(Str("John Doe")) == Ok(Ascii("\"John Doe\""))
    ensures var (st, err) := Processor.Configured(Processor.NewProcessorState, cfg, b);
      var rec := RecordAt("test-pos-1", Structured(UserInput()));
      && err == None
      && Ready(st)
      && ProcessBatch(st, b, [rec]) == [WithAfter(rec, Raw(Ascii("\"John Doe\"")))]
  {
    var input := UserInput();
    assert Plain(Map(input)) by {
      assert Plain(input["user"]);
    }
    MapResultRoundTrip(input, b);
    assert EngineFor("jmespath") == JmesPathEngine by {
      assert Lower("jmespath") == "jmespath";
    }
  }

  /**
   * A processor that was never configured has the empty type, which names
   * neither engine: every record whose payload can be extracted gets the
   * JSON encoding of null.
   */
  lemma UnconfiguredProcessorEncodesNull(b: Backends, rec: Record)
    requires ExtractData(rec.payload.after, b).Ok?
    requires b.marshal(Null).Ok?
    ensures Ready(Processor.NewProcessorState)
    ensures ProcessRecord(Processor.NewProcessorState, b, rec) == Ok(WithAfter(rec, Raw(b.marshal(Null).value)))
  {
    assert EngineFor("") == NoEngine;
  }

  /** Raw bytes that do not decode give no output record. */
  lemma InvalidJsonGivesNoRecord(st: ProcessorState, b: Backends)
    requires Ready(st)
    requires b.unmarshal(Ascii("invalid json")).Err?
    ensures ProcessBatch(st, b, [RecordAt("test-pos-4", Raw(Ascii("invalid json")))]) == []
  {
  }

  /**
   * jq producing a map: the output payload is that map, structured and not
   * wrapped, whatever else the iterator would have produced.
   */
  lemma JqMapResultStoredUnwrapped(st: ProcessorState, b: Backends, rec: Record, m: map<string, Data>, rest: seq<JqValue>)
    requires Ready(st) && EngineFor(st.config.typ) == JqEngine
    requires ExtractData(rec.payload.after, b).Ok?
    requires b.jqRun(st.jqCompiled.value, ExtractData(rec.payload.after, b).value) == [Emitted(Map(m))] + rest
    ensures ProcessRecord(st, b, rec) == Ok(WithAfter(rec, Structured(m)))
  {
  }

  /** jq producing no value drops the record with "no results". */
  lemma JqEmptyIteratorFails(st: ProcessorState, b: Backends, rec: Record)
    requires Ready(st) && EngineFor(st.config.typ) == JqEngine
    requires ExtractData(rec.payload.after, b).Ok?
    requires b.jqRun(st.jqCompiled.value, ExtractData(rec.payload.after, b).value) == []
    ensures ProcessRecord(st, b, rec) == Err(JqNoResults)
  {
  }

  /**
   * With a type that names neither engine no query runs: the result stays
   * nil and the record gets the JSON encoding of null.
   */
  lemma NoEngineEncodesNull(st: ProcessorState, b: Backends, rec: Record)
    requires EngineFor(st.config.typ) == NoEngine
    requires ExtractData(rec.payload.after, b).Ok?
    requires b.marshal(Null).Ok?
    ensures Ready(st)
    ensures ProcessRecord(st, b, rec) == Ok(WithAfter(rec, Raw(b.marshal(Null).value)))
  {
  }
}
