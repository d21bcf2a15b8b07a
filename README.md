# json.query processor — Dafny model

A model of the record transformation pipeline of the Conduit `json.query`
processor (`processor.go`). The processor is configured with a query type
(`jmespath` or `jq`, compared after lower-casing) and a query expression. It
compiles the query once. Then, for each record of a batch, it:

1. takes `Payload.After` and turns it into a value tree:
   - structured data is normalized by `convertStructuredData`;
   - raw bytes are decoded as JSON;
   - a nil payload is an error;
2. runs the query on that tree:
   - JMESPath does a single search;
   - jq pulls only the first value of its iterator;
3. stores the result back into a copy of the record, by the result's shape:
   - a map becomes structured data as it is;
   - a list becomes structured data `{"result": list}`;
   - anything else becomes raw bytes holding its JSON encoding;
4. keeps the records that succeed, in order, and silently drops the ones that fail.

Files and modules:

- `types.dfy` (`Types`): the value tree `Data`, payloads, records, configuration and errors.
  `Data` has both a plain `Map` and an `SData` map, the `opencdc.StructuredData` tag that
  Go's type switches tell apart from plain maps. `Plain(d)` says no `SData` node occurs in `d`.
- `backends.dfy` (`Backends`): the foreign engines, as uninterpreted function fields of one
  `Backends` value passed to every operation. Also the case-insensitive engine choice `EngineFor`.
- `normalizer.dfy` (`Normalizer`): `convertStructuredData`.
- `pipeline.dfy` (`Pipeline`): `processRecord` and its three stages.
- `batch.dfy` (`Batch`): the filtering policy of `Process`, as specification functions.
- `processor.dfy` (`Processor`): the `Processor` class with its three fields, `Configure`
  (and the function `Configured` that specifies it) and the `Process` loop.
- `scenarios.dfy` (`Scenarios`): the repository's test scenarios, stated for any engines that
  give the answers the scenario relies on.

Behaviour of the code that the model keeps and that a reader might not expect:

- A query type that names neither engine runs no query. Its result stays nil, so the record gets
  the JSON encoding of null (`NoEngineEncodesNull`). `Configure` rejects such a type, but a new
  processor starts with the empty type. So a processor that was never configured, or whose first
  `Configure` failed while parsing, turns every record with a usable payload into `null`
  (`UnconfiguredProcessorEncodesNull`).
- `Configure` stores the parsed configuration before it compiles. A failed JMESPath compile then
  stores nil as the compiled query. A failed jq parse leaves the previous jq query in place:
  the parse result goes to a new local (`query, err := gojq.Parse(...)`, `processor.go:95`) and
  reaches the field only after the error check (`processor.go:99`), whereas the JMESPath case
  assigns the compile result to the field directly (`processor.go:88`). A processor that was using jq
  therefore stays able to process records and keeps running its old query
  (`ConfigureFailureState`, `FailedJqReparseKeepsOldQuery`, `FailedJmesPathCompileNotReady`).
- A list result and a map result binding `"result"` to the same list give the same payload
  (`ListWrapCollides`).
- `processor_test.go:148` and `processor_test.go:174` assert that scalar results come back as
  structured data. The code at `processor.go:195-201` stores them as raw JSON bytes. The model
  follows the code.

## Model

| member | source | states |
|---|---|---|
| `Backends.EngineFor` | processor.go:86-103 | JMESPath is chosen exactly when the lower-cased type is "jmespath", jq exactly when it is "jq", and no engine otherwise; the record dispatch at processor.go:162 uses the same choice |
| `Backends.EngineForJq` | processor.go:94-99 | the type selects jq exactly when it is "jq" in any mix of letter case |
| `Backends.EngineForJmesPath` | processor.go:86-92 | the type selects JMESPath exactly when it is "jmespath" in any mix of letter case |
| `Backends.EngineForIgnoresCase` | processor.go:162-169 | lower-casing the type first does not change the engine chosen |
| `Normalizer.Normalize` | processor.go:214-241 | no StructuredData node is left anywhere in the result; primitives are returned as they are; both kinds of map become plain maps over the same keys; lists stay lists of the same length |
| `Normalizer.NormalizeEntries` | processor.go:216-229 | each map entry is normalized under its own key |
| `Normalizer.NormalizeElements` | processor.go:230-236 | each list element is normalized in its own place, so element order is kept |
| `Normalizer.NormalizeFixesPlain` | processor.go:214-241 | a tree without StructuredData nodes is returned unchanged |
| `Normalizer.NormalizeIdempotent` | processor.go:214-241 | normalizing twice equals normalizing once |
| `Normalizer.NormalizeFixedIffPlain` | processor.go:214-241 | the trees left unchanged by normalization are exactly those without StructuredData nodes |
| `Pipeline.ExtractData` | processor.go:138-156 | a nil payload is the "no data" error; structured data gives its normalized tree, a plain map over the same keys; raw bytes give the decoded tree, or the decoding error as "invalid JSON payload" |
| `Pipeline.FirstJqResult` | processor.go:169-179 | the result is the first iterator value; no value is the "no results" error; a first value that is an error is the "jq query failed" error carrying it |
| `Pipeline.FirstJqResultIgnoresRest` | processor.go:170-172 | values after the first one have no effect |
| `Pipeline.Evaluate` | processor.go:158-180 | JMESPath gives the search result, or the search error as "JMESPath query failed"; jq is the first-value rule; a type naming neither engine leaves the result nil |
| `Pipeline.EncodeResult` | processor.go:185-202 | the payload is structured exactly for a map or list result; a map is stored unwrapped; a list is stored under the single key "result"; anything else is its JSON encoding as raw bytes, or the marshal error |
| `Pipeline.WithAfter` | processor.go:183-201 | the copy of the record has the new `Payload.After`, and its position, operation, metadata, key and `Payload.Before` are those of the input |
| `Pipeline.ProcessRecord` | processor.go:136-211 | a nil payload and undecodable raw bytes are errors; on success the record is the input with only `Payload.After` replaced, and never by nil |
| `Pipeline.ProcessRecordStages` | processor.go:136-211 | a record succeeds exactly when extraction, evaluation and encoding all succeed, and its payload is the encoded result |
| `Pipeline.MapResultRoundTrip` | processor.go:186-189 | a plain map result is stored as that map, and extracting the payload again gives back the same map |
| `Pipeline.ListResultRoundTrip` | processor.go:190-194 | a list result comes back from its payload as a map holding the list under "result" |
| `Pipeline.ListWrapCollides` | processor.go:186-194 | a list result and a map binding "result" to that list give the same payload |
| `Batch.Survivors` | processor.go:120-130 | the output has one element per success and no more elements than outcomes, and holds exactly the successful values |
| `Batch.SurvivorsAppend` | processor.go:120-130 | filtering a concatenation is the concatenation of the filtered parts |
| `Batch.SurvivorPosition` | processor.go:120-130 | the success at input index i is output at the position counting the successes before it |
| `Batch.SurvivorsKeepOrder` | processor.go:120-130 | of two successes, the earlier input is output at the earlier position |
| `Batch.Outcomes` | processor.go:120-121 | there is one outcome per input record |
| `Batch.ProcessBatch` | processor.go:116-133 | the result has one record per successful outcome and never more records than the batch, and holds exactly the successfully processed records |
| `Batch.ProcessEmptyBatch` | processor.go:118-132 | an empty batch gives an empty result |
| `Batch.ProcessBatchOutputs` | processor.go:116-133 | there is one output per successful record and never more outputs than inputs; every output is the successful processing of some input, and every successful processing appears in the output |
| `Batch.ProcessBatchSplit` | processor.go:120-130 | the result for a batch is the result for its first part followed by the result for the rest |
| `Batch.FailedRecordDropped` | processor.go:121-128 | a failing record is dropped and its siblings' results do not change |
| `Batch.ProcessBatchInOrder` | processor.go:120-130 | a successful record is output at the position counting the successes before it |
| `Processor.Configured` | processor.go:76-107 | configuration succeeds exactly when parsing, the type and the compile all succeed; after a success, records can be processed; a parse failure changes nothing |
| `Processor.ConfigureRejectsUnsupportedType` | processor.go:102-103 | the "unsupported query type" error is returned exactly when the type names neither engine |
| `Processor.ConfigureSetsChosenEngine` | processor.go:86-100 | a success stores the parsed configuration and the compiled query of the chosen engine, and leaves the other engine's compiled query as it was |
| `Processor.ConfigureReportsCompileFailure` | processor.go:88-98 | a failed compile is reported as an invalid expression of the chosen engine |
| `Processor.ConfigureFailureState` | processor.go:86-104 | after a failed compile or an unsupported type the parsed configuration is stored; a failed JMESPath compile stores nil as its compiled query; otherwise both compiled queries keep their previous values |
| `Processor.FailedJqReparseKeepsOldQuery` | processor.go:94-99 | a failed jq parse on a processor holding a jq query leaves it ready, with the new configuration and the old query |
| `Processor.FailedJmesPathCompileNotReady` | processor.go:87-91 | a failed JMESPath compile leaves no compiled query for the JMESPath type |
| `Processor.ConfiguredThenEmptyBatch` | processor.go:76-133 | after a successful configuration, an empty batch gives an empty result |
| `Processor.Processor.constructor` | processor.go:71-73 | a new processor has an empty configuration and no compiled query |
| `Processor.Processor.Configure` | processor.go:76-107 | the new fields and the error are those given by `Configured` for the old fields |
| `Processor.Processor.Process` | processor.go:116-133 | the loop returns the successfully processed records in input order, and never more records than it received |
| `Scenarios.JmesPathScalarBecomesRaw` | processor_test.go:84-116 | a new processor configured with JMESPath `user.name` succeeds, and a user map then gives one record whose payload is the raw bytes `"John Doe"`, quotes included |
| `Scenarios.UnconfiguredProcessorEncodesNull` | processor.go:158-202 | a never-configured processor turns every record with a usable payload into the JSON encoding of null |
| `Scenarios.InvalidJsonGivesNoRecord` | processor_test.go:177-197 | a batch of one record with undecodable raw bytes gives no record |
| `Scenarios.JqMapResultStoredUnwrapped` | processor.go:169-189 | a jq query whose first value is a map stores that map as the payload, whatever values follow |
| `Scenarios.JqEmptyIteratorFails` | processor.go:172-175 | a jq query with no value fails with "no results" |
| `Scenarios.NoEngineEncodesNull` | processor.go:158-202 | with a type naming neither engine, the record gets the JSON encoding of null |

## Left out

- The JMESPath and jq engines (`jmespath.Compile`/`Search`, `gojq.Parse`/`Run`) are foreign libraries. They are uninterpreted fields of `Backends`.
- JSON decoding and encoding (`json.Unmarshal`, `json.Marshal`) are uninterpreted fields of `Backends`. Nothing is assumed about them, not even that they are inverse.
- `sdk.ParseConfig` (required keys, allowed values, defaults) is the uninterpreted `parseConfig` field. So "missing query" is an error only if that field says so. A parse failure is modelled as leaving the fields unchanged.
- The jq iterator is the finite sequence of values it would yield. Only its first element is ever used, so a stream that never ends after its first value is represented by that value alone.
- A jq program that runs forever before producing its first value makes `iter.Next()` never return, so the Go `Process` hangs on that batch. This divergence is not modelled: in the model `jqRun` always returns and `Process` always terminates.
- Numbers are opaque literals. Floating-point arithmetic (sums such as 4.25 and 225.75 in the tests) is not modelled.
- Go values other than nil, booleans, numbers, strings, `[]interface{}`, `map[string]interface{}` and `StructuredData` (for example `[]string` or `int64` inside structured data) are not represented. Normalization passes such values through unchanged.
- The `unsupported payload type` branch is unreachable, because `Payload` is a closed datatype.
- `Pipeline.ProcessRecord`, `Processor.Processor.Process`: both require `Ready`, the compiled query of the dispatched engine being non-nil. Without it the Go code dereferences a nil pointer and panics, which is not an error value. The panic only happens for a record whose payload is extracted successfully: in Go, a batch whose every payload is nil or undecodable returns an empty result even when the processor is not ready. The model does not cover that case.
- Lower-casing is ASCII only. Go's `strings.ToLower` also folds non-ASCII letters, but none of them folds to a letter of "jmespath" or "jq", so the engine choice is the same.
- Logging (`sdk.Logger`, the failure and debug messages with the record position) and `context.Context` are left out.
- `Specification()`, `Open` and `Teardown` carry no behaviour beyond metadata or a log line. `cmd/processor/main.go` only calls `sdk.Run`. These are not part of this model.
- Go's `recordCopy := record` is a shallow copy, so the copy shares maps (metadata, structured data) with the input. The model uses values and does not capture aliasing.
- Processed records are always `sdk.SingleRecord`, so outputs are modelled as records.
