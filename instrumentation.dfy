/**
 * The custom trace sampler of the instrumentation bootstrap. It drops every
 * span whose `http.url` attribute ends with the log-ingestion path, so that
 * the log exporter's own HTTP requests to the collector are not traced and
 * fed back into the pipeline, and samples every other span with its
 * attributes unchanged.
 */
module Instrumentation {

  import opened Otel
  import opened Js

  /** The collector's base URL and the three exporter endpoints built from it. */
  const BaseUrl: string := "https://otel.kloudmate.com:4318"
  const LogsUrl: string := BaseUrl + "/v1/logs"
  const MetricsUrl: string := BaseUrl + "/v1/metrics"
  const TracesUrl: string := BaseUrl + "/v1/traces"

  /** The attribute the sampler inspects and the suffix it drops. */
  const HttpUrlKey: string := "http.url"
  const LogsPath: string := "/v1/logs"

  /** The result on the drop path: a decision and no attributes field. */
  const Dropped: SamplingResult := SamplingResult(NotRecord, None)

  /** The result on the sample path: the caller's attributes, as they are. */
  function Sampled(attributes: Attributes): SamplingResult
  {
    SamplingResult(RecordAndSampled, Some(attributes))
  }

  /**
   * `(v as string)?.endsWith(suffix)`. The cast has no run-time effect.
   * Optional chaining short-circuits to `undefined` on `undefined`; on a
   * string it calls `endsWith`; on a number, a boolean or an array the
   * property `endsWith` is undefined and calling it throws a TypeError.
   */
  function OptionalEndsWith(v: Option<AttrValue>, suffix: string): Completion<Option<bool>>
  {
    match v
    case None => Normal(None)
    case Some(Str(s)) => Normal(Some(EndsWith(s, suffix)))
    case Some(_) => Throw(TypeError)
  }

  /** The value of `http.url` is a string ending with the log-ingestion path. */
  predicate IsLogExportUrl(url: Option<AttrValue>)
  {
    url.Some? && url.value.Str? && EndsWith(url.value.s, LogsPath)
  }

  /** The value of `http.url` is present but not a string. */
  predicate IsNonStringUrl(url: Option<AttrValue>)
  {
    url.Some? && !url.value.Str?
  }

  /**
   * `CustomSampler.shouldSample`. The context, trace id, span name, span kind
   * and links are received and never consulted; the context and the links
   * are opaque to the sampler and appear as type parameters.
   */
  function ShouldSample<C, L>(context: C, traceId: string, spanName: string, spanKind: SpanKind,
                              attributes: Attributes, links: seq<L>): (r: Completion<SamplingResult>)
    ensures IsNonStringUrl(Get(attributes, HttpUrlKey)) <==> r == Throw(TypeError)
    ensures IsLogExportUrl(Get(attributes, HttpUrlKey)) <==> r == Normal(Dropped)
    ensures Get(attributes, HttpUrlKey).None? ==> r == Normal(Sampled(attributes))
    ensures r.Normal? ==> r.value == Dropped || r.value == Sampled(attributes)
  {
    match OptionalEndsWith(Get(attributes, HttpUrlKey), LogsPath)
    case Throw(e) => Throw(e)
    case Normal(test) =>
      if Truthy(test) then Normal(Dropped) else Normal(Sampled(attributes))
  }

  /** `CustomSampler.toString`. */
  function ToString(): string
  {
    "custom sampler"
  }

  /** The decision a call reaches, or the error it throws; attributes aside. */
  function Verdict(r: Completion<SamplingResult>): Completion<SamplingDecision>
  {
    match r
    case Normal(res) => Normal(res.decision)
    case Throw(e) => Throw(e)
  }

  /**
   * A span is dropped exactly when its `http.url` is some string followed by
   * the log-ingestion path.
   */
  lemma DroppedIffLogPathSuffix<C, L>(context: C, traceId: string, spanName: string, spanKind: SpanKind,
                                       attributes: Attributes, links: seq<L>)
    ensures ShouldSample(context, traceId, spanName, spanKind, attributes, links) == Normal(Dropped)
            <==> exists p :: Get(attributes, HttpUrlKey) == Some(Str(p + LogsPath))
  {
    var url := Get(attributes, HttpUrlKey);
    if url.Some? && url.value.Str? {
      EndsWithIffConcat(url.value.s, LogsPath);
    }
  }

  /**
   * Whenever a span is kept, its decision is RECORD_AND_SAMPLED and its
   * attributes are exactly the input map: nothing is added or removed. The
   * sampler never answers RECORD alone.
   */
  lemma KeptSpansKeepTheirAttributes<C, L>(context: C, traceId: string, spanName: string, spanKind: SpanKind,
                                           attributes: Attributes, links: seq<L>)
    requires !IsLogExportUrl(Get(attributes, HttpUrlKey)) && !IsNonStringUrl(Get(attributes, HttpUrlKey))
    ensures ShouldSample(context, traceId, spanName, spanKind, attributes, links) == Normal(Sampled(attributes))
  {
  }

  /**
   * The outcome depends on `http.url` alone: two calls whose attribute maps
   * agree on that key reach the same decision (or throw alike), whatever their
   * context, trace id, span name, span kind, links and other attributes.
   */
  lemma DecisionDependsOnlyOnUrl<C, L>(c1: C, t1: string, n1: string, k1: SpanKind, a1: Attributes, l1: seq<L>,
                                       c2: C, t2: string, n2: string, k2: SpanKind, a2: Attributes, l2: seq<L>)
    requires Get(a1, HttpUrlKey) == Get(a2, HttpUrlKey)
    ensures Verdict(ShouldSample(c1, t1, n1, k1, a1, l1)) == Verdict(ShouldSample(c2, t2, n2, k2, a2, l2))
  {
  }

  /** Any URL followed by the log-ingestion path is dropped. */
  lemma AnyLogPathUrlDropped<C, L>(context: C, traceId: string, spanName: string, spanKind: SpanKind,
                                   attributes: Attributes, links: seq<L>, prefix: string)
    requires Get(attributes, HttpUrlKey) == Some(Str(prefix + LogsPath))
    ensures ShouldSample(context, traceId, spanName, spanKind, attributes, links) == Normal(Dropped)
  {
  }

  /**
   * The suffix test is exact and case-sensitive: a query string, a trailing
   * slash or an upper-cased path after any prefix is not the log-ingestion
   * path, and the span is sampled.
   */
  lemma NearMissUrlsSampled<C, L>(context: C, traceId: string, spanName: string, spanKind: SpanKind,
                                  attributes: Attributes, links: seq<L>, prefix: string)
    requires Get(attributes, HttpUrlKey) in {Some(Str(prefix + "/v1/logs?x=1")),
                                              Some(Str(prefix + "/v1/logs/")),
                                              Some(Str(prefix + "/V1/LOGS"))}
    ensures ShouldSample(context, traceId, spanName, spanKind, attributes, links) == Normal(Sampled(attributes))
  {
    var s := Get(attributes, HttpUrlKey).value.s;
    assert s[|s| - 1] != LogsPath[|LogsPath| - 1];
  }

  /**
   * Requests to the log exporter's endpoint are dropped, whatever other
   * attributes (method, peer name, ...) the client span carries.
   */
  lemma LogExporterUrlDropped<C, L>(context: C, traceId: string, spanName: string, spanKind: SpanKind,
                                    attributes: Attributes, links: seq<L>)
    requires Get(attributes, HttpUrlKey) == Some(Str(LogsUrl))
    ensures ShouldSample(context, traceId, spanName, spanKind, attributes, links) == Normal(Dropped)
  {
  }

  /** Requests to the metric exporter's endpoint are sampled with all their attributes. */
  lemma MetricExporterUrlSampled<C, L>(context: C, traceId: string, spanName: string, spanKind: SpanKind,
                                       attributes: Attributes, links: seq<L>)
    requires Get(attributes, HttpUrlKey) == Some(Str(MetricsUrl))
    ensures ShouldSample(context, traceId, spanName, spanKind, attributes, links) == Normal(Sampled(attributes))
  {
    // The last eight code units are "/metrics": 'm' stands where the path has 'v'.
    MismatchNotEndsWith(MetricsUrl, LogsPath, 1);
  }

  /** Requests to the trace exporter's endpoint are sampled with all their attributes. */
  lemma TraceExporterUrlSampled<C, L>(context: C, traceId: string, spanName: string, spanKind: SpanKind,
                                      attributes: Attributes, links: seq<L>)
    requires Get(attributes, HttpUrlKey) == Some(Str(TracesUrl))
    ensures ShouldSample(context, traceId, spanName, spanKind, attributes, links) == Normal(Sampled(attributes))
  {
    // The last eight code units are "1/traces": '1' stands where the path has '/'.
    MismatchNotEndsWith(TracesUrl, LogsPath, 0);
  }
}
