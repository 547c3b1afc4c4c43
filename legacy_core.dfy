/** The legacy tracker (neatlogs/core.py): every logged call is sent by a
    sender thread of its own, and OpenTelemetry traces reuse one trace id per
    session. */
module LegacyCore {
  import opened PyValues
  import opened Spans
  import opened Tags
  import opened TrackerSetup

  /** `LLMCallData` (neatlogs/core.py:86-114). Fields the processor fills from
      span attributes hold whatever value the attribute had. Times are seconds
      as reals (floating-point rounding is not modelled). */
  datatype LLMCallData = LLMCallData(
    sessionId: string,
    agentId: string,
    threadId: string,
    spanId: string,
    traceId: string,
    parentSpanId: Option<string>,
    nodeType: string,
    nodeName: Value,
    model: Value,
    provider: Value,
    framework: Option<string>,
    promptTokens: Value,
    completionTokens: Value,
    totalTokens: Value,
    cost: Value,
    messages: Value,
    completion: string,
    timestamp: Option<string>,
    startTime: real,
    endTime: real,
    duration: real,
    tags: seq<string>,
    errorReport: Option<Value>,
    status: string,
    apiKey: Option<string>)

  /** Whether `json.dumps(asdict(data))` succeeds. */
  predicate CallDumpable(d: LLMCallData) {
    Dumpable(d.nodeName) && Dumpable(d.model) && Dumpable(d.provider)
    && Dumpable(d.promptTokens) && Dumpable(d.completionTokens) && Dumpable(d.totalTokens)
    && Dumpable(d.cost) && Dumpable(d.messages)
    && (d.errorReport.Some? ==> Dumpable(d.errorReport.value))
  }

  /** The body a sender thread posts; `dataDump` is the JSON text of `data`,
      kept here as the data it encodes (the timestamp is not modelled). */
  datatype LegacyPayload = LegacyPayload(dataDump: LLMCallData, projectAPIKey: Option<string>, externalTraceId: string)

  /** What the sender thread for `data` posts: nothing when `json.dumps` raises
      (the error is logged inside the thread). */
  function ThreadPost(trackerKey: Option<string>, data: LLMCallData): (r: Option<LegacyPayload>)
    ensures r.Some? <==> CallDumpable(data)
    ensures r.Some? ==> r.value.dataDump == data && r.value.externalTraceId == data.traceId
    ensures r.Some? && TruthyText(data.apiKey) ==> r.value.projectAPIKey == data.apiKey
    ensures r.Some? && !TruthyText(data.apiKey) ==> r.value.projectAPIKey == trackerKey
  {
    if CallDumpable(data) then Some(LegacyPayload(data, OrText(data.apiKey, trackerKey), data.traceId)) else None
  }

  /** `SessionIdGenerator` (neatlogs/core.py:226-239): the id generator of a
      provider the tracker creates. `draw` arguments are what the wrapped
      `RandomIdGenerator` would return. */
  class SessionIdGenerator {
    var sessionTraceId: Option<TraceId>
    /** How many trace ids were drawn from the random generator. */
    var traceDraws: nat

    constructor ()
      ensures sessionTraceId == None && traceDraws == 0
    {
      sessionTraceId := None;
      traceDraws := 0;
    }

    /** `generate_span_id`: always the random generator's id. */
    method GenerateSpanId(draw: SpanId) returns (id: SpanId)
      ensures id == draw
    {
      id := draw;
    }

    /** `generate_trace_id`: the first call draws and caches; later calls return
        the cached id and draw nothing. */
    method GenerateTraceId(draw: TraceId) returns (id: TraceId)
      modifies this
      ensures old(sessionTraceId).None? ==> id == draw && traceDraws == old(traceDraws) + 1
      ensures old(sessionTraceId).Some? ==> id == old(sessionTraceId).value && traceDraws == old(traceDraws)
      ensures sessionTraceId == Some(id)
    {
      if sessionTraceId.None? {
        sessionTraceId := Some(draw);
        traceDraws := traceDraws + 1;
      }
      id := sessionTraceId.value;
    }
  }

  /** A fresh generator hands out the first draw as every trace id and draws
      from the random generator once, however often it is asked. */
  method SessionTraceIds(draws: seq<TraceId>) returns (ids: seq<TraceId>, drawn: nat)
    requires draws != []
    ensures |ids| == |draws| && forall i :: 0 <= i < |ids| ==> ids[i] == draws[0]
    ensures drawn == 1
  {
    var g := new SessionIdGenerator();
    ids := [];
    for i := 0 to |draws|
      invariant |ids| == i && forall j :: 0 <= j < i ==> ids[j] == draws[0]
      invariant if i == 0 then g.sessionTraceId.None? && g.traceDraws == 0
                else g.sessionTraceId == Some(draws[0]) && g.traceDraws == 1
    {
      var id := g.GenerateTraceId(draws[i]);
      ids := ids + [id];
    }
    drawn := g.traceDraws;
  }

  /** `LLMTracker` of neatlogs/core.py:117-437. */
  class LegacyTracker {
    const sessionId: string
    const agentId: string
    const threadId: string
    var tags: seq<string>
    const apiKey: Option<string>
    const dryRun: bool
    const enableServerSending: bool
    /** The OpenTelemetry state; this tracker keeps no ownership flag, so
        `otel.owns` plays no part in its behaviour. */
    var otel: OtelSetup
    /** `_threads`: one sender thread per send, with the data it was given. */
    var threads: seq<LLMCallData>
    /** How many times the tracer provider's `shutdown` was called. */
    var providerShutdowns: nat

    /** Dry run never sends. */
    ghost predicate Valid()
      reads this
    {
      dryRun ==> !enableServerSending
    }

    /** `__init__`: the same defaults and dry-run overrides as the current
        tracker; `freshSession` and `freshThread` are the `str(uuid4())` values. */
    constructor (apiKey: Option<string>, sessionId: Option<string>, agentId: Option<string>, threadId: Option<string>,
                 tags: Option<seq<string>>, enableServerSending: bool, enableOtel: bool, consoleExport: bool, dryRun: bool,
                 freshSession: string, freshThread: string, env: SetupEnv)
      ensures Valid()
      ensures this.sessionId == TextOr(sessionId, freshSession)
      ensures this.agentId == TextOr(agentId, DefaultAgentId)
      ensures this.threadId == TextOr(threadId, freshThread)
      ensures this.tags == TagsOr(tags) && this.apiKey == apiKey && this.dryRun == dryRun
      ensures this.enableServerSending == DeriveFlags(dryRun, enableServerSending, enableOtel, consoleExport).sending
      ensures this.otel == InitialOtel(DeriveFlags(dryRun, enableServerSending, enableOtel, consoleExport).otel, env)
      ensures threads == [] && providerShutdowns == 0
    {
      var flags := DeriveFlags(dryRun, enableServerSending, enableOtel, consoleExport);
      this.sessionId := TextOr(sessionId, freshSession);
      this.agentId := TextOr(agentId, DefaultAgentId);
      this.threadId := TextOr(threadId, freshThread);
      this.tags := TagsOr(tags);
      this.apiKey := apiKey;
      this.dryRun := dryRun;
      this.enableServerSending := flags.sending;
      threads := [];
      providerShutdowns := 0;
      this.otel := if flags.otel then SetupOtel(env) else NoOtel;
    }

    /** `_send_data_to_server`: with sending off nothing is started; otherwise
        one sender thread is started for `data`. */
    method SendDataToServer(data: LLMCallData)
      modifies this
      ensures threads == old(threads) + (if enableServerSending then [data] else [])
      ensures tags == old(tags) && otel == old(otel)
      ensures providerShutdowns == old(providerShutdowns)
    {
      if !enableServerSending {
        return;
      }
      threads := threads + [data];
    }

    /** `log_llm_call`: the JSON log line must encode, otherwise `json.dumps`
        raises (`ok` false) before anything is sent; then the data is sent when
        server sending is on. */
    method LogLlmCall(data: LLMCallData) returns (ok: bool)
      modifies this
      ensures ok == CallDumpable(data)
      ensures threads == old(threads) + (if ok && enableServerSending then [data] else [])
      ensures tags == old(tags)
      ensures otel == old(otel) && providerShutdowns == old(providerShutdowns)
    {
      ok := CallDumpable(data);
      if ok && enableServerSending {
        SendDataToServer(data);
      }
    }

    /** `add_tags`: each tag is appended unless already present. */
    method AddTags(incoming: seq<string>)
      modifies this
      ensures tags == AppendNew(old(tags), incoming)
      ensures threads == old(threads) && otel == old(otel)
      ensures providerShutdowns == old(providerShutdowns)
    {
      for i := 0 to |incoming|
        invariant tags == AppendNew(old(tags), incoming[..i])
        invariant threads == old(threads) && otel == old(otel)
        invariant providerShutdowns == old(providerShutdowns)
      {
        var tag := incoming[i];
        AppendNewSnoc(old(tags), incoming[..i], tag);
        assert incoming[..i + 1] == incoming[..i] + [tag];
        if tag !in tags {
          tags := tags + [tag];
        }
      }
      assert incoming[..|incoming|] == incoming;
    }

    /** `shutdown`: wait for the sender threads, then shut the provider down
        whenever OpenTelemetry is on and a provider is held, owned or not (an
        error from the provider is swallowed). Every call does so again. */
    method Shutdown()
      modifies this
      ensures providerShutdowns == old(providerShutdowns) + (if LegacyShutsDownProvider(otel) then 1 else 0)
      ensures threads == old(threads) && tags == old(tags) && otel == old(otel)
    {
      if otel.enabled && otel.providerPresent {
        providerShutdowns := providerShutdowns + 1;
      }
    }
  }

  /** Unlike the current tracker, the legacy one shuts down a host's provider it
      merely attached to. */
  method HostProviderShutDown(apiKey: Option<string>, env: SetupEnv) returns (shutdowns: nat)
    requires env.existingProvider && env.failure == NoFailure
    ensures shutdowns == 1
  {
    var t := new LegacyTracker(apiKey, None, None, None, None, true, true, false, false, "s", "t", env);
    t.Shutdown();
    shutdowns := t.providerShutdowns;
  }

  /** Every call logged with sending on gets a sender thread of its own, in
      order, and each thread posts its call under the call's key or the
      tracker's. */
  method LoggedCallsSent(apiKey: Option<string>, env: SetupEnv, calls: seq<LLMCallData>)
    returns (sent: seq<LLMCallData>)
    requires forall i :: 0 <= i < |calls| ==> CallDumpable(calls[i])
    ensures sent == calls
    ensures forall i :: 0 <= i < |sent| ==>
      ThreadPost(apiKey, sent[i]) == Some(LegacyPayload(calls[i], OrText(calls[i].apiKey, apiKey), calls[i].traceId))
  {
    var t := new LegacyTracker(apiKey, None, None, None, None, true, false, false, false, "s", "t", env);
    for i := 0 to |calls|
      invariant t.threads == calls[..i] && t.enableServerSending && t.apiKey == apiKey
    {
      var ok := t.LogLlmCall(calls[i]);
      assert calls[..i + 1] == calls[..i] + [calls[i]];
    }
    assert calls[..|calls|] == calls;
    sent := t.threads;
  }

  /** The module-level slot of neatlogs/core.py:443-451. */
  class LegacyRegistry {
    var globalTracker: LegacyTracker?

    constructor ()
      ensures globalTracker == null
    {
      globalTracker := null;
    }

    /** `get_tracker`: the slot of this module. */
    method GetTracker() returns (r: LegacyTracker?)
      ensures r == globalTracker
    {
      r := globalTracker;
    }
  }
}
