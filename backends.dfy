/**
 * The foreign collaborators of the processor, as uninterpreted functions:
 * the JMESPath and jq engines, JSON text decoding and encoding, and the
 * SDK's configuration parser. Also the case-insensitive choice of engine.
 */
module Backends {
  import opened Types

  /** A compiled JMESPath expression (`*jmespath.JMESPath`), opaque. */
  datatype JmesPath = JmesPath(expr: string)

  /** A parsed jq program (`*gojq.Query`), opaque. */
  datatype JqQuery = JqQuery(expr: string)

  /** One value pulled from a jq iterator: a result, or an in-band `error`. */
  datatype JqValue = Emitted(v: Data) | Raised(reason: string)

  datatype Backends = Backends(
    parseConfig: map<string, string> -> Result<ProcessorConfig, string>,
    jmesCompile: string -> Result<JmesPath, string>,
    jmesSearch: (JmesPath, Data) -> Result<Data, string>,
    jqParse: string -> Result<JqQuery, string>,
    // the values the iterator of `query.Run(data)` would yield, in order
    jqRun: (JqQuery, Data) -> seq<JqValue>,
    unmarshal: seq<byte> -> Result<Data, string>,
    marshal: Data -> Result<seq<byte>, string>)

  /** The engine selected by the configured type. */
  datatype Engine = JmesPathEngine | JqEngine | NoEngine

  function LowerChar(c: char): char {
    if 'A' <= c <= 'Z' then (c as int + 32) as char else c
  }

  /**
   * ASCII lower-casing. Go's `strings.ToLower` also folds non-ASCII
   * letters, but none of them folds to a string made only of the ASCII
   * letters of "jmespath" or "jq", so the engine choice is the same.
   */
  function Lower(s: string): string {
    seq(|s|, i requires 0 <= i < |s| => LowerChar(s[i]))
  }

  /** The engine that `switch strings.ToLower(p.config.Type)` dispatches to. */
  function EngineFor(typ: string): (e: Engine)
    ensures e == JmesPathEngine <==> Lower(typ) == "jmespath"
    ensures e == JqEngine <==> Lower(typ) == "jq"
    ensures e == NoEngine <==> Lower(typ) != "jmespath" && Lower(typ) != "jq"
  {
    var t := Lower(typ);
    if t == "jmespath" then JmesPathEngine
    else if t == "jq" then JqEngine
    else NoEngine
  }

  function UpperChar(c: char): char {
    if 'a' <= c <= 'z' then (c as int - 32) as char else c
  }

  /** `c` is the letter `lower` in either case. */
  predicate IsLetter(c: char, lower: char) {
    c == lower || c == UpperChar(lower)
  }

  /** The type selects jq exactly when it spells "jq" in any letter case. */
  lemma EngineForJq(typ: string)
    ensures EngineFor(typ) == JqEngine <==>
      |typ| == 2 && IsLetter(typ[0], 'j') && IsLetter(typ[1], 'q')
  {
    if EngineFor(typ) == JqEngine {
      assert Lower(typ)[0] == 'j' && Lower(typ)[1] == 'q';
    }
    if |typ| == 2 && IsLetter(typ[0], 'j') && IsLetter(typ[1], 'q') {
      assert Lower(typ) == "jq";
    }
  }

  /** The type selects JMESPath exactly when it spells "jmespath" in any letter case. */
  lemma EngineForJmesPath(typ: string)
    ensures EngineFor(typ) == JmesPathEngine <==>
      |typ| == 8 && forall i :: 0 <= i < 8 ==> IsLetter(typ[i], "jmespath"[i])
  {
    if |typ| == 8 && forall i :: 0 <= i < 8 ==> IsLetter(typ[i], "jmespath"[i]) {
      assert Lower(typ) == "jmespath";
    }
  }

  /** Lower-casing the type first does not change the engine chosen. */
  lemma {:induction false} EngineForIgnoresCase(typ: string)
    ensures EngineFor(Lower(typ)) == EngineFor(typ)
  {
    assert Lower(Lower(typ)) == Lower(typ);
  }
}
