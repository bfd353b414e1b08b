/**
 * The values of the OpenTelemetry API and trace SDK that a sampler receives
 * and returns: attribute values and attribute maps, span kinds, sampling
 * decisions and sampling results.
 */
module Otel {

  datatype Option<T> = None | Some(value: T)

  /**
   * An attribute value: a primitive, or a homogeneous array whose elements
   * may be null or undefined (both written None). JavaScript numbers are
   * doubles; the sampler never looks at them, so they are kept as reals.
   */
  datatype AttrValue =
    | Str(s: string)
    | Num(n: real)
    | Bool(b: bool)
    | StrArray(strs: seq<Option<string>>)
    | NumArray(nums: seq<Option<real>>)
    | BoolArray(bools: seq<Option<bool>>)

  /** Attributes: each key holds a value or `undefined` (None). */
  type Attributes = map<string, Option<AttrValue>>

  /**
   * `attributes[key]` in JavaScript: `undefined` (None) both when the key is
   * missing and when it is present with an undefined value.
   */
  function Get(attributes: Attributes, key: string): Option<AttrValue>
  {
    if key in attributes then attributes[key] else None
  }

  /** The kind of a span, as the API enumerates it. */
  datatype SpanKind = Internal | Server | Client | Producer | Consumer

  /** The trace SDK's decisions: drop, record only, record and sample. */
  datatype SamplingDecision = NotRecord | Record | RecordAndSampled

  /**
   * What a sampler returns: its decision and, optionally, the attributes to
   * put on the span. The SDK's optional trace state is never set by the
   * sampler modelled here and is not represented.
   */
  datatype SamplingResult = SamplingResult(decision: SamplingDecision, attributes: Option<Attributes>)
}
