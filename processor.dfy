/**
 * The `Processor` object: its configuration state machine (`Configure`) and
 * the batch loop (`Process`).
 */
module Processor {
  import opened Types
  import opened Backends
  import opened Pipeline
  import opened Batch

  /** The fields of `&Processor{}`: an empty configuration, no compiled query. */
  const NewProcessorState := ProcessorState(ProcessorConfig("", ""), None, None)

  /**
   * The state `Configure` leaves behind, and its error. A parse failure
   * changes nothing. Otherwise the parsed configuration is stored first,
   * then the query is compiled for the engine the lower-cased type names.
   * A failed JMESPath compile stores nil as the compiled query; a failed jq
   * parse leaves the previous jq query in place.
   */
  function Configured(st: ProcessorState, cfg: map<string, string>, b: Backends): (out: (ProcessorState, Option<Error>))
    // success exactly when parsing, the type and the compile all succeed
    ensures out.1.None? <==>
      && b.parseConfig(cfg).Ok?
      && match EngineFor(b.parseConfig(cfg).value.typ)
         case JmesPathEngine => b.jmesCompile(b.parseConfig(cfg).value.query).Ok?
         case JqEngine => b.jqParse(b.parseConfig(cfg).value.query).Ok?
         case NoEngine => false
    // after a success, records can be processed
    ensures out.1.None? ==> Ready(out.0)
    // a parse failure leaves the processor as it was
    ensures b.parseConfig(cfg).Err? ==> out.0 == st
  {
    match b.parseConfig(cfg)
    case Err(e) => (st, Some(ConfigInvalid(e)))
    case Ok(c) =>
      var parsed := st.(config := c);
      match EngineFor(c.typ)
      case JmesPathEngine =>
        (match b.jmesCompile(c.query)
         case Ok(q) => (parsed.(jmesCompiled := Some(q)), None)
         case Err(e) => (parsed.(jmesCompiled := None), Some(JmesPathInvalid(e))))
      case JqEngine =>
        (match b.jqParse(c.query)
         case Ok(q) => (parsed.(jqCompiled := Some(q)), None)
         case Err(e) => (parsed, Some(JqInvalid(e))))
      case NoEngine => (parsed, Some(UnsupportedType(c.typ)))
  }

  /** A type naming neither engine is rejected as unsupported, whatever the query. */
  lemma ConfigureRejectsUnsupportedType(st: ProcessorState, cfg: map<string, string>, b: Backends)
    requires b.parseConfig(cfg).Ok?
    ensures Configured(st, cfg, b).1 == Some(UnsupportedType(b.parseConfig(cfg).value.typ)) <==>
      EngineFor(b.parseConfig(cfg).value.typ) == NoEngine
  {
  }

  /**
   * A successful configuration stores the parsed configuration and sets
   * exactly the compiled query of the chosen engine; the other one keeps
   * its previous value.
   */
  lemma ConfigureSetsChosenEngine(st: ProcessorState, cfg: map<string, string>, b: Backends)
    requires Configured(st, cfg, b).1.None?
    ensures var (st', _) := Configured(st, cfg, b);
      var c := b.parseConfig(cfg).value;
      && st'.config == c
      && (EngineFor(c.typ) == JmesPathEngine ==>
            st'.jmesCompiled == Some(b.jmesCompile(c.query).value) && st'.jqCompiled == st.jqCompiled)
      && (EngineFor(c.typ) == JqEngine ==>
            st'.jqCompiled == Some(b.jqParse(c.query).value) && st'.jmesCompiled == st.jmesCompiled)
  {
  }

  /** A failed compile is reported as an invalid expression of the chosen engine. */
  lemma ConfigureReportsCompileFailure(st: ProcessorState, cfg: map<string, string>, b: Backends)
    requires b.parseConfig(cfg).Ok?
    ensures var c := b.parseConfig(cfg).value;
      && (EngineFor(c.typ) == JmesPathEngine && b.jmesCompile(c.query).Err? ==>
            Configured(st, cfg, b).1 == Some(JmesPathInvalid(b.jmesCompile(c.query).error)))
      && (EngineFor(c.typ) == JqEngine && b.jqParse(c.query).Err? ==>
            Configured(st, cfg, b).1 == Some(JqInvalid(b.jqParse(c.query).error)))
  {
  }

  /**
   * The state a failed compile or an unsupported type leaves behind: the
   * parsed configuration is stored in every case; a failed JMESPath compile
   * stores nil as its compiled query; a failed jq parse and an unsupported
   * type leave both compiled queries as they were.
   */
  lemma ConfigureFailureState(st: ProcessorState, cfg: map<string, string>, b: Backends)
    requires b.parseConfig(cfg).Ok?
    requires Configured(st, cfg, b).1.Some?
    ensures var c := b.parseConfig(cfg).value;
      var st' := Configured(st, cfg, b).0;
      && st'.config == c
      && (EngineFor(c.typ) == JmesPathEngine ==>
            st'.jmesCompiled == None && st'.jqCompiled == st.jqCompiled)
      && (EngineFor(c.typ) != JmesPathEngine ==>
            st'.jmesCompiled == st.jmesCompiled && st'.jqCompiled == st.jqCompiled)
  {
  }

  /**
   * A failed jq re-parse on a processor that already held a jq query leaves
   * it ready, running the previous query under the new configuration.
   */
  lemma FailedJqReparseKeepsOldQuery(st: ProcessorState, cfg: map<string, string>, b: Backends)
    requires st.jqCompiled.Some?
    requires b.parseConfig(cfg).Ok? && EngineFor(b.parseConfig(cfg).value.typ) == JqEngine
    requires b.jqParse(b.parseConfig(cfg).value.query).Err?
    ensures Configured(st, cfg, b).1.Some?
    ensures Ready(Configured(st, cfg, b).0)
    ensures Configured(st, cfg, b).0.jqCompiled == st.jqCompiled
    ensures Configured(st, cfg, b).0.config == b.parseConfig(cfg).value
  {
  }

  /**
   * A failed JMESPath compile leaves the processor unable to process records
   * that reach the query.
   */
  lemma FailedJmesPathCompileNotReady(st: ProcessorState, cfg: map<string, string>, b: Backends)
    requires b.parseConfig(cfg).Ok? && EngineFor(b.parseConfig(cfg).value.typ) == JmesPathEngine
    requires b.jmesCompile(b.parseConfig(cfg).value.query).Err?
    ensures !Ready(Configured(st, cfg, b).0)
  {
  }

  /** After a successful configuration an empty batch gives an empty result. */
  lemma ConfiguredThenEmptyBatch(st: ProcessorState, cfg: map<string, string>, b: Backends)
    requires Configured(st, cfg, b).1.None?
    ensures Ready(Configured(st, cfg, b).0)
    ensures ProcessBatch(Configured(st, cfg, b).0, b, []) == []
  {
  }

  class Processor {
    var config: ProcessorConfig
    var jmesCompiled: Option<JmesPath>
    var jqCompiled: Option<JqQuery>

    function State(): ProcessorState
      reads this
    {
      ProcessorState(config, jmesCompiled, jqCompiled)
    }

    /** `NewProcessor`: the zero processor, nothing configured or compiled. */
    constructor ()
      ensures State() == NewProcessorState
    {
      config := ProcessorConfig("", "");
      jmesCompiled := None;
      jqCompiled := None;
    }

    method Configure(cfg: map<string, string>, b: Backends) returns (err: Option<Error>)
      modifies this
      ensures (State(), err) == Configured(old(State()), cfg, b)
    {
      var parsed := b.parseConfig(cfg);
      if parsed.Err? {
        return Some(ConfigInvalid(parsed.error));
      }
      config := parsed.value;
      match EngineFor(config.typ) {
        case JmesPathEngine =>
          var compiled := b.jmesCompile(config.query);
          if compiled.Err? {
            jmesCompiled := None;
            return Some(JmesPathInvalid(compiled.error));
          }
          jmesCompiled := Some(compiled.value);
        case JqEngine =>
          var query := b.jqParse(config.query);
          if query.Err? {
            return Some(JqInvalid(query.error));
          }
          jqCompiled := Some(query.value);
        case NoEngine =>
          return Some(UnsupportedType(config.typ));
      }
      return None;
    }

    /**
     * Processes the batch in order, appending each processed record and
     * skipping each record that fails.
     */
    method Process(records: seq<Record>, b: Backends) returns (results: seq<Record>)
      requires Ready(State())
      ensures results == ProcessBatch(State(), b, records)
      ensures |results| <= |records|
    {
      var st := State();
      results := [];
      for i := 0 to |records|
        invariant results == Survivors(Outcomes(st, b, records[..i]))
      {
        var processed := ProcessRecord(st, b, records[i]);
        assert Outcomes(st, b, records[..i + 1]) == Outcomes(st, b, records[..i]) + [processed];
        SurvivorsAppend(Outcomes(st, b, records[..i]), [processed]);
        if processed.Err? {
          continue;
        }
        results := results + [processed.value];
      }
      assert records[..|records|] == records;
    }
  }
}
