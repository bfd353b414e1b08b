# Custom trace sampler of the OpenTelemetry bootstrap, in Dafny

The repository is a Node.js bootstrap script that configures the OpenTelemetry
SDK: OTLP exporters for logs, metrics and traces pointed at one collector, and
a custom trace sampler. The only logic of its own is that sampler,
`CustomSampler`. Its `shouldSample` reads the span's `http.url` attribute.
When the value is a string ending with `/v1/logs`, it returns `NOT_RECORD`
with no attributes. When it is missing, undefined, or a string not ending
with `/v1/logs`, it returns `RECORD_AND_SAMPLED` with the caller's
attributes; any other value makes the call throw a TypeError. This stops
auto-instrumentation from tracing the log exporter's own POSTs to the
collector's `/v1/logs` endpoint.

The model has three modules:

- `Otel` (`otel.dfy`): the API and SDK values the sampler sees. These are
  attribute values, attribute maps (`map<string, Option<AttrValue>>`, where
  `None` is a stored `undefined`), span kinds, the three sampling decisions,
  and the sampling result.
- `Js` (`js.dfy`): the JavaScript semantics the condition relies on. This
  covers completions (a value or a thrown `TypeError`), truthiness, and
  `String.prototype.endsWith` as ECMAScript defines it.
- `Instrumentation` (`instrumentation.dfy`): the sampler, the URL constants,
  and the lemmas about them.

`shouldSample` follows the source expression step by step:

1. a member lookup (`Get`);
2. the compile-time-only `as string` cast;
3. optional chaining (`OptionalEndsWith`): `undefined` short-circuits, a string
   calls `endsWith`, and any other value throws a `TypeError` because it has
   no `endsWith` method;
4. the `if` on the truthiness of the result.

The context and the links are opaque to the sampler, so they are type
parameters.

The code does not check the type of `http.url` at run time: `as string` is
a compile-time cast only.
`?.` does not short-circuit on a number, a boolean or an array, so calling
`.endsWith` on one throws. The model follows the code: `ShouldSample` returns
`Throw(TypeError)` in that case.

## Model

| member | source | states |
|---|---|---|
| Js.EndsWith | instrumentation.ts:26 | `endsWith` is true exactly when the search string is no longer than the string and matches its last code units one by one |
| Js.EndsWithIffConcat | instrumentation.ts:26 | a string ends with a suffix if and only if it equals some prefix followed by that suffix |
| Js.MismatchNotEndsWith | instrumentation.ts:26 | the test is exact and case-sensitive: one differing code unit among the last ones makes it false |
| Instrumentation.ShouldSample | instrumentation.ts:24-30 | throws a TypeError exactly when `http.url` is present and not a string; returns `NOT_RECORD` with no attributes exactly when it is a string ending with `/v1/logs`; samples when it is absent; every normal result is either the drop result or `RECORD_AND_SAMPLED` with the input attributes |
| Instrumentation.DroppedIffLogPathSuffix | instrumentation.ts:26-27 | a span is dropped if and only if its `http.url` is some string followed by `/v1/logs` |
| Instrumentation.KeptSpansKeepTheirAttributes | instrumentation.ts:29 | in every non-throwing, non-matching case the decision is `RECORD_AND_SAMPLED` and the returned attributes are the input map exactly |
| Instrumentation.DecisionDependsOnlyOnUrl | instrumentation.ts:25-29 | two calls whose attributes agree on `http.url` reach the same decision or throw alike, whatever their context, trace id, span name, span kind, links and other attributes |
| Instrumentation.AnyLogPathUrlDropped | instrumentation.ts:26-27 | for any prefix, a URL that is the prefix followed by `/v1/logs` is dropped |
| Instrumentation.NearMissUrlsSampled | instrumentation.ts:26-29 | for any prefix, the prefix followed by `/v1/logs?x=1`, `/v1/logs/` or `/V1/LOGS` is sampled with its attributes |
| Instrumentation.LogExporterUrlDropped | instrumentation.ts:51 | a span whose `http.url` is the log exporter's URL, the base URL followed by `/v1/logs`, is dropped, whatever its other attributes |
| Instrumentation.MetricExporterUrlSampled | instrumentation.ts:60 | a span whose `http.url` is the metric exporter's URL is sampled with all its attributes, whatever they are |
| Instrumentation.TraceExporterUrlSampled | instrumentation.ts:75 | a span whose `http.url` is the trace exporter's URL is sampled with all its attributes, whatever they are |
| Instrumentation.ToString | instrumentation.ts:32-34 | returns the constant `"custom sampler"`; no contract |

## Left out

- Construction and start of the logger provider, the batch log and span processors, the periodic metric reader, the OTLP exporters and the SDK itself (instrumentation.ts:43-87): their batching, export and retry logic lives in third-party libraries that are not part of this model.
- The metric export interval of 1000 ms (instrumentation.ts:70): a configuration value handed to the SDK; no scheduling logic is visible.
- The choice of auto-instrumentations, including disabling the file-system one (instrumentation.ts:79-84): foreign library configuration.
- The SIGTERM handler and its shutdown promise chain (instrumentation.ts:89-95): process signals, asynchronous I/O and `process.exit`; the shutdown behaviour lives in the SDK.
- Global registration of the logger provider (instrumentation.ts:57): process-wide library state.
- The exporter headers (instrumentation.ts:37-41): a credential constant with no logic; it is not reproduced.
- The optional trace state of a sampling result: this sampler never sets it.
- A top-level `null` for `http.url`: the attribute map's type admits only values and `undefined`; `?.` would treat `null` like `undefined`.
- Strings are sequences of Dafny characters, which are Unicode scalar values, while JavaScript compares UTF-16 code units: a character outside the Basic Multilingual Plane is one Dafny character but two code units, and a lone surrogate cannot be written at all. The decision is unaffected, because the suffix `/v1/logs` is ASCII and no surrogate code unit is ASCII, so the last eight code units of a URL match it exactly when its last eight characters do. JavaScript numbers are represented as reals, since the sampler never reads them.
- Sampled: on the sample path the source returns the caller's attributes object itself, the same reference; the model returns an equal map value and does not capture that the result shares the caller's object.
