/** `JsonRpcHttpClientSpanInjector`: a trace span written into HTTP headers
    (`sleuthHeaders`) and read back (`fromHeaders`). */
module SpanInjector {
  import opened Common
  import opened HexId

  // Sleuth's header names and sampling markers.
  const TraceIdName: string := "X-B3-TraceId"
  const SpanIdName: string := "X-B3-SpanId"
  const ParentIdName: string := "X-B3-ParentSpanId"
  const SampledName: string := "X-B3-Sampled"
  const ProcessIdName: string := "X-Process-Id"
  const SpanNameName: string := "X-Span-Name"
  const SpanSampled: string := "1"
  const SpanNotSampled: string := "0"

  /** The parts of a Sleuth span the headers carry. */
  datatype Span = Span(
    traceId: Long,
    spanId: Long,
    name: NullableString,
    exportable: bool,
    processId: NullableString,
    parents: seq<Long>)

  /** What `fromHeaders` produces: `null`, a span, or an exception from
      `hexToId` on an id header it cannot decode. */
  datatype Extracted = NoSpan | Extracted(span: Span) | Malformed

  /** `getParentId`: the first parent, or `null` when there is none. */
  function GetParentId(span: Span): (r: Option<Long>)
    ensures r.Some? <==> |span.parents| > 0
    ensures r.Some? ==> r.value == span.parents[0]
  {
    if |span.parents| > 0 then Some(span.parents[0]) else None
  }

  /** The sampling marker for an exportable flag. */
  function SampledMarker(exportable: bool): string {
    if exportable then SpanSampled else SpanNotSampled
  }

  /** `sleuthHeaders`. A `null` span yields only "not sampled"; a span yields
      its trace id, name, span id, sampling marker and process id, plus the
      first parent's id when it has a parent. */
  function SleuthHeaders(span: Option<Span>): (h: Headers)
    ensures span.None? ==> h == map[SampledName := Some(SpanNotSampled)]
    ensures span.Some? ==>
              h.Keys == {TraceIdName, SpanNameName, SpanIdName, SampledName, ProcessIdName}
                        + (if |span.value.parents| > 0 then {ParentIdName} else {})
    ensures span.Some? ==>
              && h[TraceIdName] == Some(IdToHex(span.value.traceId))
              && h[SpanIdName] == Some(IdToHex(span.value.spanId))
              && h[SpanNameName] == span.value.name
              && h[ProcessIdName] == span.value.processId
              && h[SampledName] == Some(if span.value.exportable then SpanSampled else SpanNotSampled)
              && (|span.value.parents| > 0 ==> h[ParentIdName] == Some(IdToHex(span.value.parents[0])))
  {
    match span
    case None => map[SampledName := Some(SpanNotSampled)]
    case Some(s) =>
      var h := map[TraceIdName := Some(IdToHex(s.traceId)),
                   SpanNameName := s.name,
                   SpanIdName := Some(IdToHex(s.spanId)),
                   SampledName := Some(SampledMarker(s.exportable))];
      var withParent :=
        match GetParentId(s)
        case Some(p) => h[ParentIdName := Some(IdToHex(p))]
        case None => h;
      withParent[ProcessIdName := s.processId]
  }

  /** `fromHeaders`. No span when the span-id header is absent, `null` or
      empty; otherwise a span whose ids are decoded, exportable exactly when
      the sampled header is "1", and with a parent only when the parent header
      is non-empty. */
  function FromHeaders(h: Headers): (r: Extracted)
    ensures r.NoSpan? <==> IsEmpty(Get(h, SpanIdName))
    ensures r.Extracted? ==>
              && HexToId(Get(h, TraceIdName)) == Some(r.span.traceId)
              && HexToId(Get(h, SpanIdName)) == Some(r.span.spanId)
              && r.span.name == Get(h, SpanNameName)
              && r.span.processId == Get(h, ProcessIdName)
              && (r.span.exportable <==> Get(h, SampledName) == Some(SpanSampled))
              && |r.span.parents| <= 1
              && (|r.span.parents| == 1 <==> !IsEmpty(Get(h, ParentIdName)))
              && (|r.span.parents| == 1 ==> HexToId(Get(h, ParentIdName)) == Some(r.span.parents[0]))
    ensures r.Malformed? <==>
              && !IsEmpty(Get(h, SpanIdName))
              && (|| HexToId(Get(h, TraceIdName)).None?
                  || HexToId(Get(h, SpanIdName)).None?
                  || (!IsEmpty(Get(h, ParentIdName)) && HexToId(Get(h, ParentIdName)).None?))
  {
    if IsEmpty(Get(h, SpanIdName)) then NoSpan
    else
      var traceId := HexToId(Get(h, TraceIdName));
      var spanId := HexToId(Get(h, SpanIdName));
      if traceId.None? || spanId.None? then Malformed
      else
        var parents :=
          if IsEmpty(Get(h, ParentIdName)) then Some([])
          else match HexToId(Get(h, ParentIdName))
            case None => None
            case Some(p) => Some([p]);
        if parents.None? then Malformed
        else
          Extracted(Span(traceId.value, spanId.value, Get(h, SpanNameName),
                         Get(h, SampledName) == Some(SpanSampled),
                         Get(h, ProcessIdName), parents.value))
  }

  /** The span keeps at most its first parent on the way through the headers. */
  function FirstParentOnly(s: Span): Span {
    s.(parents := if |s.parents| > 0 then [s.parents[0]] else [])
  }

  /** Encoding a span and decoding the headers gives back its trace id, span
      id, name, exportable flag, process id and first parent. */
  lemma {:induction false} RoundTrip(s: Span)
    ensures FromHeaders(SleuthHeaders(Some(s))) == Extracted(FirstParentOnly(s))
  {
    var h := SleuthHeaders(Some(s));
    HexRoundTrip(s.traceId);
    HexRoundTrip(s.spanId);
    assert Get(h, SpanIdName) == Some(IdToHex(s.spanId));
    assert Get(h, TraceIdName) == Some(IdToHex(s.traceId));
    if |s.parents| > 0 {
      HexRoundTrip(s.parents[0]);
      assert Get(h, ParentIdName) == Some(IdToHex(s.parents[0]));
    } else {
      assert Get(h, ParentIdName) == None;
    }
    assert Get(h, SampledName) == Some(SampledMarker(s.exportable));
  }

  /** The headers of a `null` span decode to no span. */
  lemma NullSpanRoundTrip()
    ensures FromHeaders(SleuthHeaders(None)) == NoSpan
  {
  }
}
