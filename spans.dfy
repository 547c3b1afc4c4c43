/** Finished spans, their JSON-safe serialised form and the grouping id
    (neatlogs/otel/new_processor.py:22-93). */
module Spans {
  import opened PyValues
  import opened Hex

  /** A 128-bit trace id and a 64-bit span id. */
  type TraceId = n: nat | n < Pow16(32)
  type SpanId = n: nat | n < Pow16(16)

  datatype StatusCode = Unset | Ok | Error

  /** `StatusCode.name`. */
  function CodeName(c: StatusCode): string {
    match c
    case Unset => "UNSET"
    case Ok => "OK"
    case Error => "ERROR"
  }

  datatype Status = Status(code: StatusCode, description: Option<string>)

  /** `Status.is_ok`: anything but an error. */
  predicate IsOk(s: Status) {
    s.code != Error
  }

  /** A finished span as the tracing runtime hands it over. `attributes` is the
      attribute dictionary (an absent one is the empty dictionary, as every use
      in the source reads `span.attributes or {}`); `resource` holds the resource
      attributes when the span has a resource. */
  datatype Span = Span(
    name: string,
    traceId: TraceId,
    spanId: SpanId,
    parentSpanId: Option<SpanId>,
    startTime: int,
    endTime: int,
    attributes: Entries,
    resource: Option<Entries>,
    status: Option<Status>)

  /** The dictionary `serialize_span` returns. */
  datatype SerializedSpan = SerializedSpan(
    name: string,
    traceId: Option<string>,
    spanId: Option<string>,
    parentId: Option<string>,
    startTime: int,
    endTime: int,
    attributes: Entries,
    resourceAttributes: Entries,
    statusCode: string)

  /** The coercion of one attribute value: a str/int/float/bool/list/dict/None
      passes through, anything else becomes its `str()`; `None` when that raises. */
  function Coerce(v: Value): (r: Option<Value>)
    ensures !v.Other? ==> r == Some(v)
    ensures v.Other? ==> (r.Some? <==> v.strText.Some?)
    ensures v.Other? && r.Some? ==> r.value == Str(v.strText.value)
  {
    if !v.Other? then Some(v)
    else match v.strText
      case Some(t) => Some(Str(t))
      case None => None
  }

  /** The coercion of a whole attribute dictionary, entry by entry. */
  function CoerceAll(entries: Entries): (r: Option<Entries>)
    ensures r.Some? <==> forall i :: 0 <= i < |entries| ==> Coerce(entries[i].1).Some?
    ensures r.Some? ==> |r.value| == |entries|
    ensures r.Some? ==> forall i :: 0 <= i < |entries| ==>
      r.value[i].0 == entries[i].0 && Coerce(entries[i].1) == Some(r.value[i].1)
  {
    if entries == [] then Some([])
    else
      match (Coerce(entries[0].1), CoerceAll(entries[1..]))
      case (Some(v), Some(rest)) =>
        var r := [(entries[0].0, v)] + rest;
        assert forall i :: 0 < i < |entries| ==> entries[i] == entries[1..][i - 1] && r[i] == rest[i - 1];
        Some(r)
      case (None, _) => None
      case (_, None) =>
        assert forall i :: 0 < i < |entries| ==> entries[i] == entries[1..][i - 1];
        None
  }

  function ResourceAttributes(resource: Option<Entries>): Entries {
    match resource
    case Some(attrs) => attrs
    case None => []
  }

  /** What `serialize_span` returns for `span`; `None` when a `str()` raises. */
  function Serialized(span: Span): Option<SerializedSpan> {
    match (CoerceAll(span.attributes), CoerceAll(ResourceAttributes(span.resource)))
    case (Some(attrs), Some(res)) =>
      Some(SerializedSpan(
        span.name,
        HexId(Some(span.traceId), 32),
        HexId(Some(span.spanId), 16),
        match span.parentSpanId
          case Some(p) => HexId(Some(p), 16)
          case None => None,
        span.startTime,
        span.endTime,
        attrs,
        res,
        match span.status
          case Some(s) => CodeName(s.code)
          case None => "UNSET"))
    case _ => None
  }

  /** `serialize_span` (neatlogs/otel/new_processor.py:28-67): the two loops fill
      the attribute dictionaries entry by entry. */
  method SerializeSpan(span: Span) returns (r: Option<SerializedSpan>)
    ensures r == Serialized(span)
  {
    var attributes := CoerceLoop(span.attributes);
    if attributes.None? {
      return None;
    }
    var resourceAttrs: Option<Entries> := Some([]);
    if span.resource.Some? {
      resourceAttrs := CoerceLoop(span.resource.value);
      if resourceAttrs.None? {
        return None;
      }
    }
    var parentId := if span.parentSpanId.Some? then HexId(Some(span.parentSpanId.value), 16) else None;
    var statusCode := if span.status.Some? then CodeName(span.status.value.code) else "UNSET";
    r := Some(SerializedSpan(
      span.name, HexId(Some(span.traceId), 32), HexId(Some(span.spanId), 16), parentId,
      span.startTime, span.endTime, attributes.value, resourceAttrs.value, statusCode));
  }

  /** One of the `for k, v in ....items()` loops of `serialize_span`. */
  method CoerceLoop(entries: Entries) returns (r: Option<Entries>)
    ensures r == CoerceAll(entries)
  {
    var out: Entries := [];
    for i := 0 to |entries|
      invariant |out| == i
      invariant forall j :: 0 <= j < i ==>
        out[j].0 == entries[j].0 && Coerce(entries[j].1) == Some(out[j].1)
    {
      var (k, v) := entries[i];
      if !v.Other? {
        out := out + [(k, v)];
      } else if v.strText.Some? {
        out := out + [(k, Str(v.strText.value))];
      } else {
        // `str(v)` raised: the exception leaves `serialize_span`.
        return None;
      }
    }
    assert CoerceAll(entries).Some?;
    assert CoerceAll(entries).value == out;
    r := Some(out);
  }

  /** Serialisation keeps exactly the attribute keys, in order; a JSON-native value
      is kept as it is (nested values included) and any other value becomes its
      string form, only at the top level. */
  lemma SerializedAttributes(span: Span, k: nat)
    requires Serialized(span).Some? && k < |span.attributes|
    ensures var s := Serialized(span).value;
      |s.attributes| == |span.attributes| && s.attributes[k].0 == span.attributes[k].0
      && (!span.attributes[k].1.Other? ==> s.attributes[k].1 == span.attributes[k].1)
      && (span.attributes[k].1.Other? ==> s.attributes[k].1 == Str(span.attributes[k].1.strText.value))
  {
  }

  /** Resource attributes follow the same rule; no resource gives no attributes. */
  lemma SerializedResource(span: Span)
    requires Serialized(span).Some?
    ensures span.resource.None? ==> Serialized(span).value.resourceAttributes == []
    ensures span.resource.Some? ==> Some(Serialized(span).value.resourceAttributes) == CoerceAll(span.resource.value)
  {
  }

  /** Serialisation fails exactly when some top-level value's `str()` raises. */
  lemma SerializedFailsOnlyOnStr(span: Span)
    ensures Serialized(span).None? <==>
      (exists i :: 0 <= i < |span.attributes| && span.attributes[i].1 == Other(None))
      || (span.resource.Some? && exists i :: 0 <= i < |span.resource.value| && span.resource.value[i].1 == Other(None))
  {
    var res := ResourceAttributes(span.resource);
    if Serialized(span).None? {
      if CoerceAll(span.attributes).None? {
        var i :| 0 <= i < |span.attributes| && Coerce(span.attributes[i].1).None?;
      } else {
        var i :| 0 <= i < |res| && Coerce(res[i].1).None?;
      }
    }
  }

  /** Every top-level value of a serialised span maps to a JSON type, and
      serialising an already serialised dictionary changes nothing. */
  lemma {:induction false} CoerceAllIdempotent(entries: Entries)
    requires CoerceAll(entries).Some?
    ensures var c := CoerceAll(entries).value;
      (forall i :: 0 <= i < |c| ==> !c[i].1.Other?) && CoerceAll(c) == Some(c)
  {
    var c := CoerceAll(entries).value;
    var again := CoerceAll(c);
    assert again.Some?;
    assert again.value == c;
  }

  /** Ids, parent linkage, times and status of a serialised span. */
  lemma SerializedHeader(span: Span)
    requires Serialized(span).Some?
    ensures var s := Serialized(span).value;
      s.name == span.name && s.startTime == span.startTime && s.endTime == span.endTime
      && |s.traceId.value| == 32 && IsLowerHex(s.traceId.value) && ParseHex(s.traceId.value) == span.traceId
      && |s.spanId.value| == 16 && IsLowerHex(s.spanId.value) && ParseHex(s.spanId.value) == span.spanId
      && (s.parentId.None? <==> span.parentSpanId.None?)
      && (span.parentSpanId.Some? ==> |s.parentId.value| == 16 && IsLowerHex(s.parentId.value) && ParseHex(s.parentId.value) == span.parentSpanId.value)
      && s.statusCode == (if span.status.Some? then CodeName(span.status.value.code) else "UNSET")
  {
    HexIdRoundTrip(span.traceId, 32);
    HexIdRoundTrip(span.spanId, 16);
    if span.parentSpanId.Some? {
      HexIdRoundTrip(span.parentSpanId.value, 16);
    }
  }

  const SessionIdKey: string := "neatlogs.session_id"
  const ThreadIdKey: string := "neatlogs.thread_id"

  /** `choose_external_trace_id` (neatlogs/otel/new_processor.py:70-93): a truthy
      session id, else a truthy thread id (each as its `str()`), else the hex trace
      id, else `freshId` (a new uuid4); `None` when that `str()` raises. */
  function ChooseExternalTraceId(s: SerializedSpan, freshId: string): (r: Option<string>)
    ensures r.None? <==>
      (Truthy(Attr(s.resourceAttributes, SessionIdKey)) && StrOf(Attr(s.resourceAttributes, SessionIdKey)).None?)
      || (!Truthy(Attr(s.resourceAttributes, SessionIdKey)) && Truthy(Attr(s.resourceAttributes, ThreadIdKey))
          && StrOf(Attr(s.resourceAttributes, ThreadIdKey)).None?)
  {
    var sessionId := Attr(s.resourceAttributes, SessionIdKey);
    if Truthy(sessionId) then StrOf(sessionId)
    else
      var threadId := Attr(s.resourceAttributes, ThreadIdKey);
      if Truthy(threadId) then StrOf(threadId)
      else if TruthyText(s.traceId) then s.traceId
      else Some(freshId)
  }

  /** Precedence: a truthy session id wins (as its `str()`), else a truthy thread
      id; a falsy one (`None`, "", 0, `False`, an empty list) falls through; a
      non-empty string id is returned as is; with neither, the span's own trace id. */
  lemma GroupingPrecedence(s: SerializedSpan, freshId: string, session: string, thread: string)
    ensures Truthy(Attr(s.resourceAttributes, SessionIdKey)) ==>
      ChooseExternalTraceId(s, freshId) == StrOf(Attr(s.resourceAttributes, SessionIdKey))
    ensures !Truthy(Attr(s.resourceAttributes, SessionIdKey)) && Truthy(Attr(s.resourceAttributes, ThreadIdKey)) ==>
      ChooseExternalTraceId(s, freshId) == StrOf(Attr(s.resourceAttributes, ThreadIdKey))
    ensures (session != "" && Get(s.resourceAttributes, SessionIdKey) == Some(Str(session)))
      ==> ChooseExternalTraceId(s, freshId) == Some(session)
    ensures (Attr(s.resourceAttributes, SessionIdKey) in {Null, Str("")}
             && thread != "" && Get(s.resourceAttributes, ThreadIdKey) == Some(Str(thread)))
      ==> ChooseExternalTraceId(s, freshId) == Some(thread)
    ensures (!Truthy(Attr(s.resourceAttributes, SessionIdKey)) && !Truthy(Attr(s.resourceAttributes, ThreadIdKey))
             && TruthyText(s.traceId))
      ==> ChooseExternalTraceId(s, freshId) == s.traceId
  {
  }

  /** For a serialised span the fresh-id fallback is never reached: the hex trace
      id is never empty, so without session or thread id the result is that id
      and never depends on `freshId`. */
  lemma FreshIdUnreachable(span: Span, f1: string, f2: string)
    requires Serialized(span).Some?
    ensures var s := Serialized(span).value;
      ChooseExternalTraceId(s, f1) == ChooseExternalTraceId(s, f2)
      && (!Truthy(Attr(s.resourceAttributes, SessionIdKey)) && !Truthy(Attr(s.resourceAttributes, ThreadIdKey))
          ==> ChooseExternalTraceId(s, f1) == Some(Format(span.traceId, 32)))
  {
    HexIdNonEmpty(span.traceId, 32);
  }
}
