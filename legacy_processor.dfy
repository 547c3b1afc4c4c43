/** The older span processor (neatlogs/otel/processor.py), which the legacy
    tracker registers: it recognises LLM spans, extracts model, provider, token
    counts, input messages, completion and status from their attributes into an
    `LLMCallData`, and sends it or prints a dry-run summary. */
module LegacyProcessor {
  import opened PyValues
  import opened Hex
  import opened Spans
  import opened SemConv
  import opened LegacyCore

  const GenAiSystem: string := "gen_ai.system"
  const GenAiRequestModel: string := "gen_ai.request.model"
  const InputValueKey: string := "input.value"
  const InputMimeTypeKey: string := "input.mime_type"
  const OutputValueKey: string := "output.value"
  const OutputMessageKey: string := "llm.output_messages.0.message.content"
  const GenAiOutputMessages: string := "gen_ai.output.messages"
  const JsonMime: Value := Str("application/json")

  /** The test in `on_end`: the OpenInference kind is "LLM", or a model name or
      a GenAI system attribute is present (even with a falsy value). */
  predicate IsLlmSpan(attrs: Entries) {
    Attr(attrs, SpanKindKey) == Str("LLM") || HasKey(attrs, LlmModelName) || HasKey(attrs, GenAiSystem)
  }

  // The `or` chains of `_process_llm_span`. The request and the response model
  // are the same OpenInference key.
  function ModelOf(attrs: Entries): Value {
    FirstTruthy([Attr(attrs, LlmModelName), Attr(attrs, LlmModelName), Attr(attrs, GenAiRequestModel)], Str("unknown"))
  }

  function ProviderOf(attrs: Entries): Value {
    FirstTruthy([Attr(attrs, LlmSystem), Attr(attrs, GenAiSystem)], Str("unknown"))
  }

  function PromptTokensOf(attrs: Entries): Value {
    FirstTruthy([Attr(attrs, LlmPromptTokens), Attr(attrs, GenAiInputTokens)], Int(0))
  }

  function CompletionTokensOf(attrs: Entries): Value {
    FirstTruthy([Attr(attrs, LlmCompletionTokens), Attr(attrs, GenAiOutputTokens)], Int(0))
  }

  /** The explicit total, else prompt + completion; `None` when `+` raises. */
  function TotalTokensOf(attrs: Entries): Option<Value> {
    var total := Attr(attrs, LlmTotalTokens);
    if Truthy(total) then Some(total) else Add(PromptTokensOf(attrs), CompletionTokensOf(attrs))
  }

  function CostOf(attrs: Entries): Value {
    FirstTruthy([Attr(attrs, LlmCostTotal)], Float(0.0, "0.0"))
  }

  function CompletionOf(attrs: Entries): Value {
    FirstTruthy([Attr(attrs, OutputMessageKey), Attr(attrs, OutputValueKey), Attr(attrs, GenAiOutputMessages)], Str(""))
  }

  /** Model and provider are the first truthy attribute of their chain, else
      "unknown". */
  lemma ModelAndProviderChains(attrs: Entries)
    ensures Truthy(Attr(attrs, LlmModelName)) ==> ModelOf(attrs) == Attr(attrs, LlmModelName)
    ensures !Truthy(Attr(attrs, LlmModelName)) && Truthy(Attr(attrs, GenAiRequestModel)) ==>
      ModelOf(attrs) == Attr(attrs, GenAiRequestModel)
    ensures !Truthy(Attr(attrs, LlmModelName)) && !Truthy(Attr(attrs, GenAiRequestModel)) ==> ModelOf(attrs) == Str("unknown")
    ensures Truthy(Attr(attrs, LlmSystem)) ==> ProviderOf(attrs) == Attr(attrs, LlmSystem)
    ensures !Truthy(Attr(attrs, LlmSystem)) && Truthy(Attr(attrs, GenAiSystem)) ==> ProviderOf(attrs) == Attr(attrs, GenAiSystem)
    ensures !Truthy(Attr(attrs, LlmSystem)) && !Truthy(Attr(attrs, GenAiSystem)) ==> ProviderOf(attrs) == Str("unknown")
  {
    var m := [Attr(attrs, LlmModelName), Attr(attrs, LlmModelName), Attr(attrs, GenAiRequestModel)];
    var p := [Attr(attrs, LlmSystem), Attr(attrs, GenAiSystem)];
    if Truthy(m[0]) {
      FirstTruthyFirst(m, Str("unknown"), 0);
    } else if Truthy(m[2]) {
      FirstTruthyFirst(m, Str("unknown"), 2);
    } else {
      FirstTruthyNone(m, Str("unknown"));
    }
    if Truthy(p[0]) {
      FirstTruthyFirst(p, Str("unknown"), 0);
    } else if Truthy(p[1]) {
      FirstTruthyFirst(p, Str("unknown"), 1);
    } else {
      FirstTruthyNone(p, Str("unknown"));
    }
  }

  /** Token counts default to 0; the total is the explicit attribute when truthy,
      else the sum of the two counts. */
  lemma TokenChains(attrs: Entries)
    ensures !Truthy(Attr(attrs, LlmPromptTokens)) && !Truthy(Attr(attrs, GenAiInputTokens)) ==> PromptTokensOf(attrs) == Int(0)
    ensures Truthy(Attr(attrs, LlmPromptTokens)) ==> PromptTokensOf(attrs) == Attr(attrs, LlmPromptTokens)
    ensures !Truthy(Attr(attrs, LlmPromptTokens)) && Truthy(Attr(attrs, GenAiInputTokens)) ==>
      PromptTokensOf(attrs) == Attr(attrs, GenAiInputTokens)
    ensures !Truthy(Attr(attrs, LlmCompletionTokens)) && !Truthy(Attr(attrs, GenAiOutputTokens)) ==> CompletionTokensOf(attrs) == Int(0)
    ensures Truthy(Attr(attrs, LlmCompletionTokens)) ==> CompletionTokensOf(attrs) == Attr(attrs, LlmCompletionTokens)
    ensures !Truthy(Attr(attrs, LlmCompletionTokens)) && Truthy(Attr(attrs, GenAiOutputTokens)) ==>
      CompletionTokensOf(attrs) == Attr(attrs, GenAiOutputTokens)
    ensures Truthy(Attr(attrs, LlmTotalTokens)) ==> TotalTokensOf(attrs) == Some(Attr(attrs, LlmTotalTokens))
    ensures !Truthy(Attr(attrs, LlmTotalTokens)) && PromptTokensOf(attrs).Int? && CompletionTokensOf(attrs).Int? ==>
      TotalTokensOf(attrs) == Some(Int(PromptTokensOf(attrs).i + CompletionTokensOf(attrs).i))
  {
    PromptTokensChain(attrs);
    CompletionTokensChain(attrs);
  }

  /** The prompt-token chain, case by case. */
  lemma PromptTokensChain(attrs: Entries)
    ensures !Truthy(Attr(attrs, LlmPromptTokens)) && !Truthy(Attr(attrs, GenAiInputTokens)) ==> PromptTokensOf(attrs) == Int(0)
    ensures Truthy(Attr(attrs, LlmPromptTokens)) ==> PromptTokensOf(attrs) == Attr(attrs, LlmPromptTokens)
    ensures !Truthy(Attr(attrs, LlmPromptTokens)) && Truthy(Attr(attrs, GenAiInputTokens)) ==>
      PromptTokensOf(attrs) == Attr(attrs, GenAiInputTokens)
  {
    var p := [Attr(attrs, LlmPromptTokens), Attr(attrs, GenAiInputTokens)];
    if Truthy(p[0]) {
      FirstTruthyFirst(p, Int(0), 0);
    } else if Truthy(p[1]) {
      FirstTruthyFirst(p, Int(0), 1);
    } else {
      FirstTruthyNone(p, Int(0));
    }
  }

  /** The completion-token chain, case by case. */
  lemma CompletionTokensChain(attrs: Entries)
    ensures !Truthy(Attr(attrs, LlmCompletionTokens)) && !Truthy(Attr(attrs, GenAiOutputTokens)) ==> CompletionTokensOf(attrs) == Int(0)
    ensures Truthy(Attr(attrs, LlmCompletionTokens)) ==> CompletionTokensOf(attrs) == Attr(attrs, LlmCompletionTokens)
    ensures !Truthy(Attr(attrs, LlmCompletionTokens)) && Truthy(Attr(attrs, GenAiOutputTokens)) ==>
      CompletionTokensOf(attrs) == Attr(attrs, GenAiOutputTokens)
  {
    var c := [Attr(attrs, LlmCompletionTokens), Attr(attrs, GenAiOutputTokens)];
    if Truthy(c[0]) {
      FirstTruthyFirst(c, Int(0), 0);
    } else if Truthy(c[1]) {
      FirstTruthyFirst(c, Int(0), 1);
    } else {
      FirstTruthyNone(c, Int(0));
    }
  }

  /** The branch that re-parses `output.value` for Gemini candidates runs only
      when the completion is falsy and `output.value` is truthy; it never runs,
      because a truthy `output.value` already makes the completion truthy. */
  lemma CandidatesBranchNeverFires(attrs: Entries)
    ensures Truthy(Attr(attrs, OutputValueKey)) ==> Truthy(CompletionOf(attrs))
    ensures !(!Truthy(CompletionOf(attrs)) && Truthy(Attr(attrs, OutputValueKey)))
  {
    var c := [Attr(attrs, OutputMessageKey), Attr(attrs, OutputValueKey), Attr(attrs, GenAiOutputMessages)];
    if Truthy(c[1]) {
      if Truthy(c[0]) {
        FirstTruthyFirst(c, Str(""), 0);
      } else {
        FirstTruthyFirst(c, Str(""), 1);
      }
    }
  }

  /** The status and error report of a span. */
  datatype StatusReport = StatusReport(status: string, errorReport: Option<Value>)

  function StatusOf(s: Status): StatusReport {
    if !IsOk(s) && TruthyText(s.description)
    then StatusReport("FAILURE", Some(Dict([("message", Str(s.description.value)), ("type", Str("SpanError"))])))
    else StatusReport("SUCCESS", None)
  }

  /** "FAILURE" with a report exactly for an error status with a non-empty
      description, otherwise "SUCCESS" without one. */
  lemma StatusMapping(s: Status)
    ensures StatusOf(s).status == "FAILURE" <==> s.code == Error && TruthyText(s.description)
    ensures StatusOf(s).status != "FAILURE" ==> StatusOf(s) == StatusReport("SUCCESS", None)
    ensures StatusOf(s).errorReport.Some? <==> StatusOf(s).status == "FAILURE"
    ensures StatusOf(s).errorReport.Some? ==>
      Get(StatusOf(s).errorReport.value.entries, "message") == Some(Str(s.description.value))
  {
  }

  function UserMessage(text: string): Value {
    Dict([("role", Str("user")), ("content", Str(text))])
  }

  /** `text += part["text"]` over the dict parts that have a "text" key; `None`
      when a text is not a string (`TypeError`). */
  function PartsText(parts: seq<Value>): Option<string>
    decreases |parts|
  {
    if parts == [] then Some("")
    else
      match PartsText(parts[..|parts| - 1])
      case None => None
      case Some(text) =>
        var part := parts[|parts| - 1];
        if !part.Dict? then Some(text)
        else
          match Get(part.entries, "text")
          case None => Some(text)
          case Some(Str(s)) => Some(text + s)
          case Some(_) => None
  }

  /** The text of a list of parts is the text of its first part followed by the
      text of the rest. */
  lemma {:induction false} PartsTextAppend(a: seq<Value>, b: seq<Value>)
    ensures PartsText(a + b) ==
      (if PartsText(a).Some? && PartsText(b).Some? then Some(PartsText(a).value + PartsText(b).value) else None)
    decreases |b|
  {
    if b == [] {
      assert a + b == a;
      if PartsText(a).Some? {
        assert PartsText(a).value + "" == PartsText(a).value;
      }
    } else {
      var b0, x := b[..|b| - 1], b[|b| - 1];
      assert (a + b)[..|a + b| - 1] == a + b0;
      assert (a + b)[|a + b| - 1] == x;
      PartsTextAppend(a, b0);
      if PartsText(a).Some? && PartsText(b0).Some? && x.Dict? && Get(x.entries, "text").Some? && Get(x.entries, "text").value.Str? {
        var ta, tb, s := PartsText(a).value, PartsText(b0).value, Get(x.entries, "text").value.s;
        assert ta + tb + s == ta + (tb + s);
      }
    }
  }

  /** The message for one element of "contents"; `None` when it raises (it is
      not a dict, its parts are not iterable or a text is not a string). */
  function ContentMessage(content: Value): Option<Value> {
    if !content.Dict? then None
    else
      match Iterate(GetOr(content.entries, "parts", List([])))
      case None => None
      case Some(parts) =>
        match PartsText(parts)
        case None => None
        case Some(text) => Some(Dict([("role", GetOr(content.entries, "role", Str("user"))), ("content", Str(text))]))
  }

  /** The messages appended while looping over "contents", and whether an
      element raised (which ends the loop). */
  datatype Built = Built(msgs: seq<Value>, raised: bool)

  function ContentsMessages(cs: seq<Value>): Built
    decreases |cs|
  {
    if cs == [] then Built([], false)
    else
      var b := ContentsMessages(cs[..|cs| - 1]);
      if b.raised then b
      else
        match ContentMessage(cs[|cs| - 1])
        case None => Built(b.msgs, true)
        case Some(m) => Built(b.msgs + [m], false)
  }

  /** One message per element, in order, when no element raises; otherwise the
      messages of the elements before the first one that raises. */
  lemma {:induction false} ContentsMessagesEach(cs: seq<Value>)
    ensures var b := ContentsMessages(cs);
      (!b.raised <==> forall i :: 0 <= i < |cs| ==> ContentMessage(cs[i]).Some?)
      && (!b.raised ==> |b.msgs| == |cs|)
      && (b.raised ==> |b.msgs| < |cs| && ContentMessage(cs[|b.msgs|]).None?)
      && (forall i :: 0 <= i < |b.msgs| ==> ContentMessage(cs[i]) == Some(b.msgs[i]))
    decreases |cs|
  {
    if cs != [] {
      var init := cs[..|cs| - 1];
      ContentsMessagesEach(init);
      forall i | 0 <= i < |init| ensures cs[i] == init[i] { }
    }
  }

  /** A message built from a content element: its role, or "user", and the
      concatenated texts of its parts. */
  lemma ContentMessageShape(content: Value)
    requires ContentMessage(content).Some?
    ensures content.Dict?
    ensures Get(ContentMessage(content).value.entries, "role") == Some(GetOr(content.entries, "role", Str("user")))
    ensures Get(ContentMessage(content).value.entries, "content") ==
      Some(Str(PartsText(Iterate(GetOr(content.entries, "parts", List([]))).value).value))
  {
    GetSkip(ContentMessage(content).value.entries, "content");
  }

  /** The except clause: the messages so far plus the raw value as one user
      message; `None` when `str()` of the raw value raises there too. */
  function WithFallback(msgs: seq<Value>, fallback: Option<string>): Option<Value> {
    match fallback
    case Some(text) => Some(List(msgs + [UserMessage(text)]))
    case None => None
  }

  /** The `messages` built from `input.value` and `input.mime_type`; `parsed` is
      what `json.loads` returns for the value (`None` when it raises). `None`
      when an exception escapes. */
  function InputMessages(inputValue: Value, mimeType: Value, parsed: Option<Value>): Option<Value> {
    if !Truthy(inputValue) then Some(List([]))
    else
      var fallback := StrOf(inputValue);
      if mimeType != JsonMime then WithFallback([], fallback)
      else if !inputValue.Str? || parsed.None? then WithFallback([], fallback)
      else
        var data := parsed.value;
        if !data.Dict? then Some(List([]))
        else if HasKey(data.entries, "contents") then
          match Iterate(Attr(data.entries, "contents"))
          case None => WithFallback([], fallback)
          case Some(cs) =>
            var b := ContentsMessages(cs);
            if b.raised then WithFallback(b.msgs, fallback) else Some(List(b.msgs))
        else if HasKey(data.entries, "messages") then Some(Attr(data.entries, "messages"))
        else if HasKey(data.entries, "role") && HasKey(data.entries, "content") then Some(List([data]))
        else Some(List([]))
  }

  /** A raw value that is not JSON, or whose parse fails, becomes one user
      message holding its text; a parsed "contents" list gives one message per
      element; no input gives no messages. */
  lemma InputMessagesCases(inputValue: Value, mimeType: Value, parsed: Option<Value>)
    ensures !Truthy(inputValue) ==> InputMessages(inputValue, mimeType, parsed) == Some(List([]))
    ensures Truthy(inputValue) && mimeType != JsonMime && StrOf(inputValue).Some? ==>
      InputMessages(inputValue, mimeType, parsed) == Some(List([UserMessage(StrOf(inputValue).value)]))
    ensures Truthy(inputValue) && mimeType == JsonMime && inputValue.Str? && parsed.None? ==>
      InputMessages(inputValue, mimeType, parsed) == Some(List([UserMessage(inputValue.s)]))
    ensures (Truthy(inputValue) && mimeType == JsonMime && inputValue.Str? && parsed.Some? && parsed.value.Dict?
             && Get(parsed.value.entries, "contents").Some? && Attr(parsed.value.entries, "contents").List?
             && forall i :: 0 <= i < |Attr(parsed.value.entries, "contents").items| ==>
                  ContentMessage(Attr(parsed.value.entries, "contents").items[i]).Some?)
      ==> (var cs := Attr(parsed.value.entries, "contents").items;
           var r := InputMessages(inputValue, mimeType, parsed);
           r.Some? && r.value.List? && |r.value.items| == |cs|
           && forall i :: 0 <= i < |cs| ==> Some(r.value.items[i]) == ContentMessage(cs[i]))
  {
    if Truthy(inputValue) && StrOf(inputValue).Some? {
      assert [] + [UserMessage(StrOf(inputValue).value)] == [UserMessage(StrOf(inputValue).value)];
    }
    if Truthy(inputValue) && mimeType == JsonMime && inputValue.Str? && parsed.Some? && parsed.value.Dict?
       && Get(parsed.value.entries, "contents").Some? && Attr(parsed.value.entries, "contents").List? {
      ContentsMessagesEach(Attr(parsed.value.entries, "contents").items);
    }
  }

  /** The parts loop of one content element. */
  method JoinPartsText(parts: seq<Value>) returns (r: Option<string>)
    ensures r == PartsText(parts)
  {
    var text := "";
    for i := 0 to |parts|
      invariant PartsText(parts[..i]) == Some(text)
    {
      assert parts[..i + 1][..i] == parts[..i];
      assert parts[..i + 1][i] == parts[i];
      var part := parts[i];
      if part.Dict? && HasKey(part.entries, "text") {
        var t := Attr(part.entries, "text");
        if !t.Str? {
          PartsTextAppend(parts[..i + 1], parts[i + 1..]);
          assert parts[..i + 1] + parts[i + 1..] == parts;
          return None;
        }
        text := text + t.s;
      }
    }
    assert parts[..|parts|] == parts;
    r := Some(text);
  }

  /** The message-building part of `_process_llm_span`
      (neatlogs/otel/processor.py:126-165). */
  method ExtractInputMessages(inputValue: Value, mimeType: Value, parsed: Option<Value>) returns (r: Option<Value>)
    ensures r == InputMessages(inputValue, mimeType, parsed)
  {
    if !Truthy(inputValue) {
      return Some(List([]));
    }
    var fallback := StrOf(inputValue);
    if mimeType != JsonMime || !inputValue.Str? || parsed.None? {
      return WithFallback([], fallback);
    }
    var data := parsed.value;
    if !data.Dict? {
      return Some(List([]));
    }
    if HasKey(data.entries, "contents") {
      var contents := Iterate(Attr(data.entries, "contents"));
      if contents.None? {
        return WithFallback([], fallback);
      }
      var cs := contents.value;
      var messages: seq<Value> := [];
      for i := 0 to |cs|
        invariant ContentsMessages(cs[..i]) == Built(messages, false)
      {
        assert cs[..i + 1][..i] == cs[..i];
        assert cs[..i + 1][i] == cs[i];
        var content := cs[i];
        if !content.Dict? {
          ContentsRaiseStays(cs, i + 1);
          return WithFallback(messages, fallback);
        }
        var parts := Iterate(GetOr(content.entries, "parts", List([])));
        if parts.None? {
          ContentsRaiseStays(cs, i + 1);
          return WithFallback(messages, fallback);
        }
        var text := JoinPartsText(parts.value);
        if text.None? {
          ContentsRaiseStays(cs, i + 1);
          return WithFallback(messages, fallback);
        }
        messages := messages + [Dict([("role", GetOr(content.entries, "role", Str("user"))), ("content", Str(text.value))])];
      }
      assert cs[..|cs|] == cs;
      return Some(List(messages));
    } else if HasKey(data.entries, "messages") {
      return Some(Attr(data.entries, "messages"));
    } else if HasKey(data.entries, "role") && HasKey(data.entries, "content") {
      return Some(List([data]));
    }
    r := Some(List([]));
  }

  /** Once the loop over "contents" has raised, later elements change nothing. */
  lemma {:induction false} ContentsRaiseStays(cs: seq<Value>, k: nat)
    requires k <= |cs| && ContentsMessages(cs[..k]).raised
    ensures ContentsMessages(cs) == ContentsMessages(cs[..k])
    decreases |cs| - k
  {
    if k < |cs| {
      assert cs[..k + 1][..k] == cs[..k];
      ContentsRaiseStays(cs, k + 1);
    } else {
      assert cs[..k] == cs;
    }
  }

  /** The tracker state `_process_llm_span` reads. */
  datatype TrackerView = TrackerView(
    sessionId: string, agentId: string, threadId: string, tags: seq<string>,
    apiKey: Option<string>, sending: bool, dryRun: bool)

  function ViewOf(t: LegacyTracker): TrackerView
    reads t
  {
    TrackerView(t.sessionId, t.agentId, t.threadId, t.tags, t.apiKey, t.enableServerSending, t.dryRun)
  }

  /** The `LLMCallData` record for `span` once the values that can raise are
      known: ids in hex, times in seconds, the tracker's ids, tags and key. */
  function BuildCallData(span: Span, t: TrackerView, total: Value, messages: Value, completion: string, status: Status): LLMCallData {
    var attrs := span.attributes;
    var report := StatusOf(status);
    var startTime := span.startTime as real / 1000000000.0;
    var endTime := span.endTime as real / 1000000000.0;
    LLMCallData(
      t.sessionId, t.agentId, t.threadId,
      Format(span.spanId, 16), Format(span.traceId, 32),
      if span.parentSpanId.Some? then Some(Format(span.parentSpanId.value, 16)) else None,
      "llm_call", ModelOf(attrs), ModelOf(attrs), ProviderOf(attrs), None,
      PromptTokensOf(attrs), CompletionTokensOf(attrs), total, CostOf(attrs),
      messages, completion, None, startTime, endTime, endTime - startTime,
      t.tags, report.errorReport, report.status, t.apiKey)
  }

  /** The `LLMCallData` `_process_llm_span` builds for `span`; `None` when it
      raises: `str()` of `input.value` (for the debug line) or of the completion
      raises, the token sum is a `TypeError`, message building lets an exception
      escape, or the span has no status. */
  function CallDataOf(span: Span, t: TrackerView, parsed: Option<Value>): Option<LLMCallData> {
    var attrs := span.attributes;
    var total := TotalTokensOf(attrs);
    var messages := InputMessages(Attr(attrs, InputValueKey), Attr(attrs, InputMimeTypeKey), parsed);
    var completion := StrOf(CompletionOf(attrs));
    if StrOf(Attr(attrs, InputValueKey)).None? || total.None? || messages.None? || completion.None? || span.status.None?
    then None
    else Some(BuildCallData(span, t, total.value, messages.value, completion.value, span.status.value))
  }

  /** What `on_end` does with a span. */
  datatype LegacyOutcome =
    | NotLlm
    | Sent(data: LLMCallData)
    | DryRunPrinted(lines: seq<string>)
    | Dropped
    | Failed(printed: seq<string>)

  const DryRunHead: string := "Neatlogs [Dry Run]: Processed span "
  const DryRunMessagesHead: string := "Neatlogs [Dry Run] Messages: "

  /** The dispatch at the end of `_process_llm_span`: send, print the dry-run
      summary (and the messages when there are any), or do nothing. */
  function Dispatch(d: LLMCallData, sending: bool, dryRun: bool): LegacyOutcome {
    if sending && !dryRun then Sent(d)
    else if dryRun then
      match (StrOf(d.model), Len(d.messages))
      case (Some(model), Some(n)) =>
        var line := DryRunHead + d.spanId + " for " + model + ". Input Messages: " + IntText(n)
                    + ", Completion Length: " + IntText(|d.completion|);
        if !Truthy(d.messages) then DryRunPrinted([line])
        else
          (match StrOf(d.messages)
           case Some(text) => DryRunPrinted([line, DryRunMessagesHead + text])
           case None => Failed([line]))
      case _ => Failed([])
    else Dropped
  }

  /** The outcome of `on_end` for `span` on a tracker in state `t`. */
  function OnEndDecision(span: Option<Span>, t: TrackerView, parsed: Option<Value>): LegacyOutcome {
    if span.None? || !IsLlmSpan(span.value.attributes) then NotLlm
    else
      match CallDataOf(span.value, t, parsed)
      case None => Failed([])
      case Some(d) => Dispatch(d, t.sending, t.dryRun)
  }

  /** A span is sent exactly when it is an LLM span, processing succeeds and the
      tracker sends and is not in dry run; the data carries the chains' values,
      the tracker's ids, tags and key, and the status mapping. */
  lemma SentExactly(span: Span, t: TrackerView, parsed: Option<Value>)
    ensures var r := OnEndDecision(Some(span), t, parsed);
      (r.Sent? <==> IsLlmSpan(span.attributes) && CallDataOf(span, t, parsed).Some? && t.sending && !t.dryRun)
      && (r.Sent? ==>
            r.data.model == ModelOf(span.attributes) && r.data.provider == ProviderOf(span.attributes)
            && r.data.promptTokens == PromptTokensOf(span.attributes)
            && Some(r.data.totalTokens) == TotalTokensOf(span.attributes)
            && r.data.sessionId == t.sessionId && r.data.agentId == t.agentId && r.data.threadId == t.threadId
            && r.data.tags == t.tags && r.data.apiKey == t.apiKey
            && StatusReport(r.data.status, r.data.errorReport) == StatusOf(span.status.value)
            && |r.data.spanId| == 16 && IsLowerHex(r.data.spanId) && ParseHex(r.data.spanId) == span.spanId)
  {
    var r := OnEndDecision(Some(span), t, parsed);
    if !IsLlmSpan(span.attributes) {
      assert r == NotLlm;
    } else if CallDataOf(span, t, parsed).None? {
      assert r == Failed([]);
    } else {
      var d := CallDataOf(span, t, parsed).value;
      assert r == Dispatch(d, t.sending, t.dryRun);
      DispatchSends(d, t.sending, t.dryRun);
      CallDataFields(span, t, parsed);
      HexIdRoundTrip(span.spanId, 16);
    }
  }

  /** The fields of the built call data that come from the span and the tracker. */
  lemma CallDataFields(span: Span, t: TrackerView, parsed: Option<Value>)
    requires CallDataOf(span, t, parsed).Some?
    ensures var d := CallDataOf(span, t, parsed).value;
      d.model == ModelOf(span.attributes) && d.provider == ProviderOf(span.attributes)
      && d.promptTokens == PromptTokensOf(span.attributes)
      && Some(d.totalTokens) == TotalTokensOf(span.attributes)
      && d.sessionId == t.sessionId && d.agentId == t.agentId && d.threadId == t.threadId
      && d.tags == t.tags && d.apiKey == t.apiKey
      && StatusReport(d.status, d.errorReport) == StatusOf(span.status.value)
      && d.spanId == Format(span.spanId, 16)
  {
  }

  /** The dispatch sends exactly when sending is on without dry run, and then
      sends the data unchanged. */
  lemma DispatchSends(d: LLMCallData, sending: bool, dryRun: bool)
    ensures Dispatch(d, sending, dryRun).Sent? <==> sending && !dryRun
    ensures Dispatch(d, sending, dryRun).Sent? ==> Dispatch(d, sending, dryRun).data == d
    ensures !sending && !dryRun ==> Dispatch(d, sending, dryRun) == Dropped
  {
  }

  /** Spans that are not LLM spans are ignored, and only those. */
  lemma NotLlmIgnored(span: Option<Span>, t: TrackerView, parsed: Option<Value>)
    ensures OnEndDecision(span, t, parsed) == NotLlm <==> span.None? || !IsLlmSpan(span.value.attributes)
  {
  }

  /** Dry run never sends; its summary names the span id and the model, then
      the number of input messages, and the messages follow on a second line
      exactly when there are any. */
  lemma DryRunSummary(d: LLMCallData, sending: bool)
    ensures var r := Dispatch(d, sending, true);
      !r.Sent? && !r.Dropped?
      && (r.DryRunPrinted? ==>
            StrOf(d.model).Some? && Len(d.messages).Some?
            && var head := DryRunHead + d.spanId + " for " + StrOf(d.model).value;
               var count := ". Input Messages: " + IntText(Len(d.messages).value);
               |r.lines| >= 1 && |r.lines[0]| >= |head| + |count|
               && r.lines[0][..|head|] == head
               && r.lines[0][|head|..|head| + |count|] == count
               && (|r.lines| == 2 <==> Truthy(d.messages)))
  {
    var r := Dispatch(d, sending, true);
    if r.DryRunPrinted? {
      var head := DryRunHead + d.spanId + " for " + StrOf(d.model).value;
      var count := ". Input Messages: " + IntText(Len(d.messages).value);
      var tail := ", Completion Length: " + IntText(|d.completion|);
      assert r.lines[0] == head + count + tail;
      ThreeParts(head, count, tail);
    }
  }

  /** The first two parts of a three-part text are where they were put. */
  lemma ThreeParts(head: string, count: string, tail: string)
    ensures (head + count + tail)[..|head|] == head
    ensures (head + count + tail)[|head|..|head| + |count|] == count
  {
    assert (head + count + tail)[..|head|] == head;
    assert (head + count + tail)[|head|..|head| + |count|] == count;
  }

  /** In dry run a processed LLM span is summarised under its id, never sent. */
  lemma DryRunNeverSends(span: Span, t: TrackerView, parsed: Option<Value>)
    requires t.dryRun
    ensures var r := OnEndDecision(Some(span), t, parsed);
      !r.Sent? && !r.Dropped?
      && (r.DryRunPrinted? ==>
            (CallDataOf(span, t, parsed).Some?
             && r == Dispatch(CallDataOf(span, t, parsed).value, t.sending, true)
             && CallDataOf(span, t, parsed).value.spanId == Format(span.spanId, 16)))
  {
    if IsLlmSpan(span.attributes) && CallDataOf(span, t, parsed).Some? {
      DryRunSummary(CallDataOf(span, t, parsed).value, t.sending);
    }
  }

  /** `NeatlogsSpanProcessor` of neatlogs/otel/processor.py. `on_start`,
      `shutdown` and `force_flush` do nothing. */
  class LegacySpanProcessor {
    const tracker: LegacyTracker

    constructor (tracker: LegacyTracker)
      ensures this.tracker == tracker
    {
      this.tracker := tracker;
    }

    /** `_process_llm_span` up to the dispatch. */
    method ProcessLlmSpan(span: Span, parsed: Option<Value>) returns (r: Option<LLMCallData>)
      ensures r == CallDataOf(span, ViewOf(tracker), parsed)
    {
      var attrs := span.attributes;
      if StrOf(Attr(attrs, InputValueKey)).None? {
        return None;
      }
      var total := TotalTokensOf(attrs);
      if total.None? {
        return None;
      }
      var messages := ExtractInputMessages(Attr(attrs, InputValueKey), Attr(attrs, InputMimeTypeKey), parsed);
      if messages.None? {
        return None;
      }
      if span.status.None? {
        return None;
      }
      var completion := StrOf(CompletionOf(attrs));
      if completion.None? {
        return None;
      }
      r := Some(BuildCallData(span, ViewOf(tracker), total.value, messages.value, completion.value, span.status.value));
    }

    /** The end of `_process_llm_span`: send, or print the dry-run summary. */
    method DispatchCall(data: LLMCallData) returns (r: LegacyOutcome)
      modifies tracker
      ensures r == Dispatch(data, tracker.enableServerSending, tracker.dryRun)
      ensures tracker.threads == old(tracker.threads) + (if r.Sent? then [r.data] else [])
      ensures ViewOf(tracker) == old(ViewOf(tracker)) && tracker.otel == old(tracker.otel)
      ensures tracker.providerShutdowns == old(tracker.providerShutdowns)
    {
      if tracker.enableServerSending && !tracker.dryRun {
        tracker.SendDataToServer(data);
        r := Sent(data);
      } else {
        r := Dispatch(data, tracker.enableServerSending, tracker.dryRun);
      }
    }

    /** `on_end`: decide as `OnEndDecision`; the only effect on the tracker is
        the sender thread started for a sent span. */
    method OnEnd(span: Option<Span>, parsed: Option<Value>) returns (r: LegacyOutcome)
      requires tracker.Valid()
      modifies tracker
      ensures r == OnEndDecision(span, old(ViewOf(tracker)), parsed)
      ensures tracker.threads == old(tracker.threads) + (if r.Sent? then [r.data] else [])
      ensures ViewOf(tracker) == old(ViewOf(tracker)) && tracker.otel == old(tracker.otel)
      ensures tracker.providerShutdowns == old(tracker.providerShutdowns)
    {
      if span.None? || !IsLlmSpan(span.value.attributes) {
        return NotLlm;
      }
      ghost var view := ViewOf(tracker);
      var data := ProcessLlmSpan(span.value, parsed);
      if data.None? {
        return Failed([]);
      }
      assert OnEndDecision(span, view, parsed) == Dispatch(data.value, view.sending, view.dryRun);
      r := DispatchCall(data.value);
    }
  }
}
