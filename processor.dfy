/** The span processor the current tracker registers on the tracer provider
    (neatlogs/otel/new_processor.py:96-139): every finished span that carries an
    OpenInference span kind is serialised and queued for sending. */
module SpanProcessor {
  import opened PyValues
  import opened Spans
  import opened Tracker
  import SemConv
  const DryRunPrefix: string := "[Dry Run] Captured span for trace "

  /** What `on_end` did with a span: nothing, queued it, logged it in dry run,
      dropped it (sending off), or logged an exception. */
  datatype Outcome = Ignored | Enqueued(data: CallData) | DryRunLogged(line: string) | Dropped | Failed

  /** The decision `on_end` takes for `span` on a tracker with the given
      switches and key; `freshId` is the uuid used when a span has no trace id. */
  function OnEndDecision(span: Option<Span>, sending: bool, dryRun: bool, apiKey: Option<string>, freshId: string): Outcome {
    if span.None? || !Truthy(Attr(span.value.attributes, SemConv.SpanKindKey)) then Ignored
    else
      match Serialized(span.value)
      case None => Failed
      case Some(s) =>
        match ChooseExternalTraceId(s, freshId)
        case None => Failed
        case Some(ext) =>
          if sending && !dryRun then Enqueued(CallData(ext, s, apiKey))
          else if dryRun then DryRunLogged(DryRunPrefix + ext)
          else Dropped
  }

  /** Spans without a (truthy) span kind are infrastructure spans and ignored. */
  lemma InfraSpansIgnored(span: Option<Span>, sending: bool, dryRun: bool, apiKey: Option<string>, freshId: string)
    ensures span.None? || !Truthy(Attr(span.value.attributes, SemConv.SpanKindKey)) ==>
      OnEndDecision(span, sending, dryRun, apiKey, freshId) == Ignored
    ensures OnEndDecision(span, sending, dryRun, apiKey, freshId) == Ignored ==>
      span.None? || !Truthy(Attr(span.value.attributes, SemConv.SpanKindKey))
  {
  }

  /** A span is queued exactly when it has a span kind, serialises, has a
      grouping id, and the tracker sends and is not in dry run; the queued data
      is the serialised span under its grouping id with the tracker's key. */
  lemma EnqueuedExactly(span: Span, sending: bool, dryRun: bool, apiKey: Option<string>, freshId: string)
    ensures var r := OnEndDecision(Some(span), sending, dryRun, apiKey, freshId);
      r.Enqueued? <==>
        (Truthy(Attr(span.attributes, SemConv.SpanKindKey)) && Serialized(span).Some?
         && ChooseExternalTraceId(Serialized(span).value, freshId).Some? && sending && !dryRun)
    ensures var r := OnEndDecision(Some(span), sending, dryRun, apiKey, freshId);
      r.Enqueued? ==>
        r.data == CallData(ChooseExternalTraceId(Serialized(span).value, freshId).value, Serialized(span).value, apiKey)
  {
  }

  /** Dry run never queues; a captured span is logged with its grouping id. */
  lemma DryRunNeverEnqueues(span: Option<Span>, sending: bool, apiKey: Option<string>, freshId: string)
    ensures var r := OnEndDecision(span, sending, true, apiKey, freshId);
      !r.Enqueued? && !r.Dropped?
      && (r.DryRunLogged? ==>
            span.Some? && Serialized(span.value).Some?
            && Some(r.line[|DryRunPrefix|..]) == ChooseExternalTraceId(Serialized(span.value).value, freshId)
            && r.line[..|DryRunPrefix|] == DryRunPrefix)
  {
    var r := OnEndDecision(span, sending, true, apiKey, freshId);
    if r.DryRunLogged? {
      var ext := ChooseExternalTraceId(Serialized(span.value).value, freshId).value;
      assert r.line == DryRunPrefix + ext;
    }
  }

  /** Processing fails only when some value's `str()` raises; a span whose kind
      is set and whose attribute values all convert is never lost to an error. */
  lemma FailsOnlyOnStr(span: Span, sending: bool, dryRun: bool, apiKey: Option<string>, freshId: string)
    requires OnEndDecision(Some(span), sending, dryRun, apiKey, freshId) == Failed
    ensures Serialized(span).None? || ChooseExternalTraceId(Serialized(span).value, freshId).None?
    ensures Serialized(span).None? ==>
      (exists i :: 0 <= i < |span.attributes| && span.attributes[i].1 == Other(None))
      || (span.resource.Some? && exists i :: 0 <= i < |span.resource.value| && span.resource.value[i].1 == Other(None))
  {
    SerializedFailsOnlyOnStr(span);
  }

  /** `NeatlogsSpanProcessor`. `on_start`, `shutdown` and `force_flush` do nothing. */
  class NeatlogsSpanProcessor {
    const tracker: LLMTracker

    constructor (tracker: LLMTracker)
      ensures this.tracker == tracker
    {
      this.tracker := tracker;
    }

    /** `on_end`: decide as `OnEndDecision` and queue the data it chooses. */
    method OnEnd(span: Option<Span>, freshId: string) returns (r: Outcome)
      requires tracker.Valid()
      modifies tracker
      ensures tracker.Valid()
      ensures r == OnEndDecision(span, tracker.enableServerSending, tracker.dryRun, tracker.apiKey, freshId)
      ensures tracker.queue == old(tracker.queue) + (if r.Enqueued? then [Item(r.data)] else [])
      ensures tracker.posts == old(tracker.posts) && tracker.delivered == old(tracker.delivered) && tracker.workerAlive == old(tracker.workerAlive)
      ensures tracker.tags == old(tracker.tags) && tracker.otel == old(tracker.otel)
      ensures tracker.providerShutdowns == old(tracker.providerShutdowns)
    {
      if span.None? {
        return Ignored;
      }
      var spanKind := Attr(span.value.attributes, SemConv.SpanKindKey);
      if !Truthy(spanKind) {
        return Ignored;
      }
      var serialized := SerializeSpan(span.value);
      if serialized.None? {
        return Failed;
      }
      var externalTraceId := ChooseExternalTraceId(serialized.value, freshId);
      if externalTraceId.None? {
        return Failed;
      }
      var callData := CallData(externalTraceId.value, serialized.value, tracker.apiKey);
      if tracker.enableServerSending && !tracker.dryRun {
        tracker.EnqueueSpan(callData);
        r := Enqueued(callData);
      } else if tracker.dryRun {
        r := DryRunLogged(DryRunPrefix + externalTraceId.value);
      } else {
        r := Dropped;
      }
    }
  }

  /** The call data `on_end` queues for each span of `spans`, in order. */
  function EnqueuedOf(spans: seq<Span>, sending: bool, dryRun: bool, apiKey: Option<string>, freshId: string): seq<CallData>
    decreases |spans|
  {
    if spans == [] then []
    else
      var r := OnEndDecision(Some(spans[|spans| - 1]), sending, dryRun, apiKey, freshId);
      EnqueuedOf(spans[..|spans| - 1], sending, dryRun, apiKey, freshId) + (if r.Enqueued? then [r.data] else [])
  }

  /** Spans ended while the tracker runs are each posted once at shutdown, in
      the order they ended. */
  method EndedSpansAreSent(t: LLMTracker, spans: seq<Span>, freshId: string, net: nat -> bool)
    returns (queued: seq<CallData>, posted: seq<Payload>)
    requires t.Valid() && t.workerAlive && t.queue == [] && t.enableServerSending
    modifies t
    ensures queued == EnqueuedOf(spans, true, t.dryRun, t.apiKey, freshId)
    ensures posted == Deliveries(queued, t.apiKey)
  {
    var p := new NeatlogsSpanProcessor(t);
    queued := [];
    var posts0 := t.posts;
    for k := 0 to |spans|
      invariant t.Valid() && t.workerAlive && t.enableServerSending && t.posts == posts0
      invariant queued == EnqueuedOf(spans[..k], true, t.dryRun, t.apiKey, freshId)
      invariant t.queue == Items(queued)
    {
      assert spans[..k + 1][..k] == spans[..k];
      var r := p.OnEnd(Some(spans[k]), freshId);
      if r.Enqueued? {
        ItemsSnoc(queued, r.data);
        queued := queued + [r.data];
      }
    }
    assert spans[..|spans|] == spans;
    var _ := t.Shutdown(net);
    DrainPostsInOrder(true, t.apiKey, queued);
    posted := t.posts[|posts0|..];
  }
}
