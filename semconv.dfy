/** Semantic-convention helpers (neatlogs/semconv.py): attribute keys, provider
    name normalisation, the formatters that clean messages and tools before they
    are stored as a JSON attribute, tool-call extraction and the common
    attributes of an LLM span. */
module SemConv {
  import opened PyValues

  // OpenInference and agent attribute keys.
  const SpanKindKey: string := "openinference.span.kind"
  const LlmModelName: string := "llm.model_name"
  const LlmSystem: string := "llm.system"
  const LlmPromptTokens: string := "llm.token_count.prompt"
  const LlmCompletionTokens: string := "llm.token_count.completion"
  const LlmTotalTokens: string := "llm.token_count.total"
  const GenAiInputTokens: string := "gen_ai.usage.input_tokens"
  const GenAiOutputTokens: string := "gen_ai.usage.output_tokens"
  const LlmCostTotal: string := "llm.cost.total"
  const AgentSessionId: string := "agent.session.id"
  const AgentId: string := "agent.id"
  const AgentThreadId: string := "agent.thread.id"

  /** `str.lower()` on ASCII letters. */
  function LowerChar(c: char): char {
    if 'A' <= c <= 'Z' then (c as int + 32) as char else c
  }

  function Lower(s: string): string {
    seq(|s|, i requires 0 <= i < |s| => LowerChar(s[i]))
  }

  predicate IsLowerText(s: string) {
    forall i :: 0 <= i < |s| ==> !('A' <= s[i] <= 'Z')
  }

  lemma LowerIsLower(s: string)
    ensures IsLowerText(Lower(s)) && Lower(Lower(s)) == Lower(s)
  {
  }

  lemma LowerKeepsLower(s: string)
    requires IsLowerText(s)
    ensures Lower(s) == s
  {
  }

  /** The alias table of `get_provider_system_name`. */
  const ProviderMapping: map<string, string> := map[
    "openai" := "openai",
    "anthropic" := "anthropic",
    "google" := "gemini",
    "google_genai" := "gemini",
    "gemini" := "gemini",
    "azure" := "azure_openai",
    "azure_openai" := "azure_openai",
    "litellm" := "litellm",
    "mistral" := "mistral",
    "cohere" := "cohere"]

  /** `get_provider_system_name`: the canonical name of a listed alias, any other
      name lower-cased. */
  function ProviderSystemName(provider: string): string {
    var name := Lower(provider);
    if name in ProviderMapping then ProviderMapping[name] else name
  }

  const CanonicalNames: set<string> := {"openai", "anthropic", "gemini", "azure_openai", "litellm", "mistral", "cohere"}

  /** Every canonical name is lower case and is its own alias. */
  lemma CanonicalNamesFixed()
    ensures forall k :: k in ProviderMapping ==> ProviderMapping[k] in CanonicalNames
    ensures forall c :: c in CanonicalNames ==> IsLowerText(c) && c in ProviderMapping && ProviderMapping[c] == c
  {
  }

  /** The listed aliases map to their canonical names whatever their case. */
  lemma ProviderAliases(p: string)
    ensures Lower(p) == "google" || Lower(p) == "google_genai" ==> ProviderSystemName(p) == "gemini"
    ensures Lower(p) == "azure" ==> ProviderSystemName(p) == "azure_openai"
    ensures Lower(p) !in ProviderMapping ==> ProviderSystemName(p) == Lower(p)
  {
  }

  /** The result ignores the case of the input, is always lower case and in
      canonical form, and normalising it again changes nothing. */
  lemma ProviderNameNormal(p: string, q: string)
    ensures ProviderSystemName(p) == ProviderSystemName(Lower(p))
    ensures Lower(p) == Lower(q) ==> ProviderSystemName(p) == ProviderSystemName(q)
    ensures IsLowerText(ProviderSystemName(p))
    ensures ProviderSystemName(ProviderSystemName(p)) == ProviderSystemName(p)
  {
    LowerIsLower(p);
    CanonicalNamesFixed();
    var r := ProviderSystemName(p);
    LowerKeepsLower(r);
  }

  /** What one turn of a list-building `for` loop does with an element: skip it,
      append a value, or raise (which abandons the whole loop). */
  datatype Step = Skip | Keep(v: Value) | Raise

  /** The list such a loop builds over `items`; `None` when an element raises. */
  function Collect<T>(items: seq<T>, step: T -> Step): Option<seq<Value>>
    decreases |items|
  {
    if items == [] then Some([])
    else
      match Collect(items[..|items| - 1], step)
      case None => None
      case Some(init) =>
        match step(items[|items| - 1])
        case Skip => Some(init)
        case Keep(v) => Some(init + [v])
        case Raise => None
  }

  function Concat(a: Option<seq<Value>>, b: Option<seq<Value>>): Option<seq<Value>> {
    if a.Some? && b.Some? then Some(a.value + b.value) else None
  }

  /** Order is kept: the loop over `a + b` builds the list for `a` followed by
      the list for `b`. */
  lemma {:induction false} CollectAppend<T>(a: seq<T>, b: seq<T>, step: T -> Step)
    ensures Collect(a + b, step) == Concat(Collect(a, step), Collect(b, step))
    decreases |b|
  {
    if b == [] {
      assert a + b == a;
      if Collect(a, step).Some? {
        assert Collect(a, step).value + [] == Collect(a, step).value;
      }
    } else {
      var b0, x := b[..|b| - 1], b[|b| - 1];
      assert (a + b)[..|a + b| - 1] == a + b0;
      assert (a + b)[|a + b| - 1] == x;
      CollectAppend(a, b0, step);
      if Collect(a, step).Some? && Collect(b0, step).Some? && step(x).Keep? {
        var ra, rb := Collect(a, step).value, Collect(b0, step).value;
        assert ra + rb + [step(x).v] == ra + (rb + [step(x).v]);
      }
    }
  }

  /** The loop raises exactly when some element raises. */
  lemma {:induction false} CollectRaises<T>(items: seq<T>, step: T -> Step)
    ensures Collect(items, step).None? <==> exists i :: 0 <= i < |items| && step(items[i]).Raise?
    decreases |items|
  {
    if items != [] {
      var init := items[..|items| - 1];
      CollectRaises(init, step);
      if Collect(init, step).None? {
        var i :| 0 <= i < |init| && step(init[i]).Raise?;
        assert items[i] == init[i];
      }
      forall i | 0 <= i < |init| ensures items[i] == init[i] { }
    }
  }

  /** Every element of the built list is the value kept for some element of
      `items`, every kept value is in it, and it is no longer than `items`. */
  lemma {:induction false} CollectFrom<T>(items: seq<T>, step: T -> Step)
    requires Collect(items, step).Some?
    ensures var r := Collect(items, step).value;
      |r| <= |items|
      && (forall j :: 0 <= j < |r| ==> exists i :: 0 <= i < |items| && step(items[i]) == Keep(r[j]))
      && (forall i :: 0 <= i < |items| && step(items[i]).Keep? ==> step(items[i]).v in r)
    decreases |items|
  {
    if items != [] {
      var init := items[..|items| - 1];
      CollectFrom(init, step);
      var r := Collect(items, step).value;
      var r0 := Collect(init, step).value;
      forall j | 0 <= j < |r| ensures exists i :: 0 <= i < |items| && step(items[i]) == Keep(r[j]) {
        if j < |r0| {
          var i :| 0 <= i < |init| && step(init[i]) == Keep(r0[j]);
          assert items[i] == init[i];
        } else {
          assert step(items[|items| - 1]) == Keep(r[j]);
        }
      }
      forall i | 0 <= i < |items| && step(items[i]).Keep? ensures step(items[i]).v in r {
        if i < |init| {
          assert items[i] == init[i];
        }
      }
    }
  }

  /** The message `format_messages_for_attribute` keeps for `msg`. */
  function MessageStep(msg: Value): Step {
    if !msg.Dict? then Skip
    else
      match StrOf(GetOr(msg.entries, "content", Str("")))
      case None => Raise
      case Some(text) =>
        Keep(Dict([("role", GetOr(msg.entries, "role", Str("unknown"))), ("content", Str(Truncate(text, 2000)))]
                  + (if HasKey(msg.entries, "tool_calls") then [("tool_calls", Attr(msg.entries, "tool_calls"))] else [])))
  }

  const MessagesFallback: Value := List([Dict([("role", Str("unknown")), ("content", Str("serialization_error"))])])

  /** The list `format_messages_for_attribute` dumps to JSON: the cleaned dict
      messages, or the fixed fallback when iterating, `str()` or `json.dumps`
      raises. */
  function FormattedMessages(messages: Value): Value {
    match Iterate(messages)
    case None => MessagesFallback
    case Some(items) =>
      match Collect(items, MessageStep)
      case None => MessagesFallback
      case Some(clean) => if Dumpable(List(clean)) then List(clean) else MessagesFallback
  }

  /** `format_messages_for_attribute` (neatlogs/semconv.py:155-174). */
  method FormatMessagesForAttribute(messages: Value) returns (r: Value)
    ensures r == FormattedMessages(messages)
  {
    var items := Iterate(messages);
    if items.None? {
      return MessagesFallback;
    }
    var clean: seq<Value> := [];
    for i := 0 to |items.value|
      invariant Collect(items.value[..i], MessageStep) == Some(clean)
    {
      assert items.value[..i + 1][..i] == items.value[..i];
      assert items.value[..i + 1][i] == items.value[i];
      var msg := items.value[i];
      if msg.Dict? {
        var content := StrOf(GetOr(msg.entries, "content", Str("")));
        if content.None? {
          CollectRaises(items.value, MessageStep);
          return MessagesFallback;
        }
        var cleanMsg := [("role", GetOr(msg.entries, "role", Str("unknown"))), ("content", Str(Truncate(content.value, 2000)))];
        if HasKey(msg.entries, "tool_calls") {
          cleanMsg := cleanMsg + [("tool_calls", Attr(msg.entries, "tool_calls"))];
        } else {
          assert cleanMsg + [] == cleanMsg;
        }
        assert MessageStep(msg) == Keep(Dict(cleanMsg));
        clean := clean + [Dict(cleanMsg)];
      }
    }
    assert items.value[..|items.value|] == items.value;
    r := if Dumpable(List(clean)) then List(clean) else MessagesFallback;
  }

  /** A message as the formatter leaves it: a role and a string content of at
      most 2000 characters. */
  predicate CleanMessage(m: Value) {
    m.Dict? && HasKey(m.entries, "role")
    && Get(m.entries, "content").Some? && Attr(m.entries, "content").Str?
    && |Attr(m.entries, "content").s| <= 2000
  }

  lemma MessageStepClean(msg: Value)
    ensures MessageStep(msg).Keep? <==> msg.Dict? && StrOf(GetOr(msg.entries, "content", Str(""))).Some?
    ensures MessageStep(msg).Keep? ==>
      var m := MessageStep(msg).v;
      CleanMessage(m)
      && Attr(m.entries, "role") == GetOr(msg.entries, "role", Str("unknown"))
      && Attr(m.entries, "content") == Str(Truncate(StrOf(GetOr(msg.entries, "content", Str(""))).value, 2000))
      && (HasKey(m.entries, "tool_calls") <==> HasKey(msg.entries, "tool_calls"))
      && (HasKey(m.entries, "tool_calls") ==> Attr(m.entries, "tool_calls") == Attr(msg.entries, "tool_calls"))
  {
    if MessageStep(msg).Keep? {
      var m := MessageStep(msg).v;
      var role := GetOr(msg.entries, "role", Str("unknown"));
      var content := Str(Truncate(StrOf(GetOr(msg.entries, "content", Str(""))).value, 2000));
      assert m.entries[0] == ("role", role) && m.entries[1] == ("content", content);
      GetSkip(m.entries, "content");
      if HasKey(msg.entries, "tool_calls") {
        assert m.entries[2] == ("tool_calls", Attr(msg.entries, "tool_calls"));
        GetSkip(m.entries, "tool_calls");
        GetSkip(m.entries[1..], "tool_calls");
      } else {
        assert |m.entries| == 2;
      }
    }
  }

  /** The formatter never raises: its result always encodes as JSON, and every
      message in it is clean (the fallback message included). */
  lemma FormattedMessagesClean(messages: Value)
    ensures Dumpable(FormattedMessages(messages)) && FormattedMessages(messages).List?
    ensures forall j :: 0 <= j < |FormattedMessages(messages).items| ==> CleanMessage(FormattedMessages(messages).items[j])
  {
    var r := FormattedMessages(messages);
    GetSkip(MessagesFallback.items[0].entries, "content");
    assert CleanMessage(MessagesFallback.items[0]);
    var items := Iterate(messages);
    if items.Some? && Collect(items.value, MessageStep).Some? && Dumpable(List(Collect(items.value, MessageStep).value)) {
      CollectFrom(items.value, MessageStep);
      forall j | 0 <= j < |r.items| ensures CleanMessage(r.items[j]) {
        var i :| 0 <= i < |items.value| && MessageStep(items.value[i]) == Keep(r.items[j]);
        MessageStepClean(items.value[i]);
      }
    }
  }

  /** Non-dict entries are dropped and the rest keep their order: formatting a
      list of two parts gives the messages of the first then those of the
      second, when nothing raises. */
  lemma FormattedMessagesInOrder(a: seq<Value>, b: seq<Value>)
    requires FormattedMessages(List(a + b)) != MessagesFallback
    ensures FormattedMessages(List(a)).items + FormattedMessages(List(b)).items == FormattedMessages(List(a + b)).items
  {
    CollectAppend(a, b, MessageStep);
    var ra, rb := Collect(a, MessageStep).value, Collect(b, MessageStep).value;
    DumpableSplit(ra, rb);
  }

  /** A JSON-encodable list splits into two JSON-encodable lists. */
  lemma DumpableSplit(ra: seq<Value>, rb: seq<Value>)
    requires Dumpable(List(ra + rb))
    ensures Dumpable(List(ra)) && Dumpable(List(rb))
  {
    forall j | 0 <= j < |ra| ensures Dumpable(ra[j]) {
      assert ra[j] == (ra + rb)[j];
    }
    forall j | 0 <= j < |rb| ensures Dumpable(rb[j]) {
      assert rb[j] == (ra + rb)[|ra| + j];
    }
  }

  /** A non-dict entry on its own contributes no message. */
  lemma NonDictMessageDropped(x: Value)
    requires !x.Dict?
    ensures FormattedMessages(List([x])) == List([])
  {
    assert [x][..0] == [];
    assert Collect([x], MessageStep) == Some([]);
  }

  /** The tool `format_tools_for_attribute` keeps for `tool`. */
  function ToolStep(tool: Value): Step {
    if !tool.Dict? then Skip
    else
      match StrOf(GetOr(tool.entries, "description", Str("")))
      case None => Raise
      case Some(text) =>
        Keep(Dict([("name", GetOr(tool.entries, "name", Str("unknown"))),
                   ("type", GetOr(tool.entries, "type", Str("function"))),
                   ("description", Str(Truncate(text, 500)))]))
  }

  const ToolsFallback: Value :=
    List([Dict([("name", Str("unknown")), ("type", Str("function")), ("description", Str("serialization_error"))])])

  /** The list `format_tools_for_attribute` dumps to JSON. */
  function FormattedTools(tools: Value): Value {
    match Iterate(tools)
    case None => ToolsFallback
    case Some(items) =>
      match Collect(items, ToolStep)
      case None => ToolsFallback
      case Some(clean) => if Dumpable(List(clean)) then List(clean) else ToolsFallback
  }

  /** `format_tools_for_attribute` (neatlogs/semconv.py:177-192). */
  method FormatToolsForAttribute(tools: Value) returns (r: Value)
    ensures r == FormattedTools(tools)
  {
    var items := Iterate(tools);
    if items.None? {
      return ToolsFallback;
    }
    var clean: seq<Value> := [];
    for i := 0 to |items.value|
      invariant Collect(items.value[..i], ToolStep) == Some(clean)
    {
      assert items.value[..i + 1][..i] == items.value[..i];
      assert items.value[..i + 1][i] == items.value[i];
      var tool := items.value[i];
      if tool.Dict? {
        var description := StrOf(GetOr(tool.entries, "description", Str("")));
        if description.None? {
          CollectRaises(items.value, ToolStep);
          return ToolsFallback;
        }
        clean := clean + [Dict([("name", GetOr(tool.entries, "name", Str("unknown"))),
                                ("type", GetOr(tool.entries, "type", Str("function"))),
                                ("description", Str(Truncate(description.value, 500)))])];
      }
    }
    assert items.value[..|items.value|] == items.value;
    r := if Dumpable(List(clean)) then List(clean) else ToolsFallback;
  }

  /** A tool as the formatter leaves it: name, type and a description of at most
      500 characters, in that order. */
  predicate CleanTool(t: Value) {
    t.Dict? && |t.entries| == 3 && t.entries[0].0 == "name" && t.entries[1].0 == "type"
    && t.entries[2].0 == "description" && t.entries[2].1.Str? && |t.entries[2].1.s| <= 500
  }

  /** The tool formatter never raises, and every tool it returns is clean, with
      the given name and type or the defaults "unknown" and "function". */
  lemma FormattedToolsClean(tools: Value)
    ensures Dumpable(FormattedTools(tools)) && FormattedTools(tools).List?
    ensures forall j :: 0 <= j < |FormattedTools(tools).items| ==> CleanTool(FormattedTools(tools).items[j])
    ensures Iterate(tools).Some? && FormattedTools(tools) != ToolsFallback ==>
      forall j :: 0 <= j < |FormattedTools(tools).items| ==>
        CleanTool(FormattedTools(tools).items[j]) &&
        exists i :: 0 <= i < |Iterate(tools).value| && Iterate(tools).value[i].Dict?
          && FormattedTools(tools).items[j].entries[0].1 == GetOr(Iterate(tools).value[i].entries, "name", Str("unknown"))
          && FormattedTools(tools).items[j].entries[1].1 == GetOr(Iterate(tools).value[i].entries, "type", Str("function"))
  {
    var items := Iterate(tools);
    if items.Some? && Collect(items.value, ToolStep).Some? && Dumpable(List(Collect(items.value, ToolStep).value)) {
      var r := Collect(items.value, ToolStep).value;
      CollectFrom(items.value, ToolStep);
      forall j | 0 <= j < |r| ensures CleanTool(r[j]) {
        var i :| 0 <= i < |items.value| && ToolStep(items.value[i]) == Keep(r[j]);
      }
    }
  }

  /** A content block: an SDK object with the given attributes (the attribute
      `type` among them, or not), or a plain value such as a dict. `RaisingBlock`
      is a block on which the loop raises: reading `type`, `id`, `name` or `input`
      raises something other than `AttributeError` (which `hasattr` and `getattr`
      with a default do not swallow), or the comparison with "tool_use" raises.
      An iterator that raises after yielding some blocks is those blocks followed
      by a `RaisingBlock`. */
  datatype Block = ObjectBlock(attrs: Entries) | ValueBlock(v: Value) | RaisingBlock

  function ToolCall(id: Value, name: Value, arguments: Value): Value {
    Dict([("id", id), ("name", name), ("type", Str("function")), ("arguments", arguments)])
  }

  /** The tool call `extract_tool_calls_data` takes from one block. */
  function ToolCallStep(b: Block): Step {
    match b
    case ObjectBlock(attrs) =>
      if Get(attrs, "type") == Some(Str("tool_use"))
      then Keep(ToolCall(GetOr(attrs, "id", Str("unknown")), GetOr(attrs, "name", Str("unknown")), GetOr(attrs, "input", Dict([]))))
      else Skip
    case ValueBlock(v) =>
      if v.Dict? && Attr(v.entries, "type") == Str("tool_use")
      then Keep(ToolCall(GetOr(v.entries, "id", Str("unknown")), GetOr(v.entries, "name", Str("unknown")), GetOr(v.entries, "input", Dict([]))))
      else Skip
    case RaisingBlock => Raise
  }

  predicate IsToolUse(b: Block) {
    match b
    case ObjectBlock(attrs) => Get(attrs, "type") == Some(Str("tool_use"))
    case ValueBlock(v) => v.Dict? && Attr(v.entries, "type") == Str("tool_use")
    case RaisingBlock => false
  }

  /** The index of the first block on which the loop raises, or `|bs|`. */
  function FirstRaise(bs: seq<Block>): (k: nat)
    ensures k <= |bs|
    ensures forall i :: 0 <= i < k ==> !bs[i].RaisingBlock?
    ensures k < |bs| ==> bs[k].RaisingBlock?
    decreases |bs|
  {
    if bs == [] || bs[0].RaisingBlock? then 0
    else
      var k := 1 + FirstRaise(bs[1..]);
      assert forall i :: 1 <= i < k ==> bs[i] == bs[1..][i - 1];
      k
  }

  /** The list `extract_tool_calls_data` returns: `blocks` is `None` when the
      argument is not iterable, and the loop sits inside the `try`, so the calls
      collected before the first raising block are returned (the exception is
      swallowed). */
  function ToolCallsOf(blocks: Option<seq<Block>>): seq<Value> {
    match blocks
    case None => []
    case Some(bs) =>
      var k := FirstRaise(bs);
      assert forall i :: 0 <= i < k ==> bs[..k][i] == bs[i];
      CollectRaises(bs[..k], ToolCallStep);
      Collect(bs[..k], ToolCallStep).value
  }

  /** `extract_tool_calls_data` (neatlogs/semconv.py:195-218). */
  method ExtractToolCallsData(blocks: Option<seq<Block>>) returns (r: seq<Value>)
    ensures r == ToolCallsOf(blocks)
  {
    r := [];
    if blocks.None? {
      return;
    }
    var bs := blocks.value;
    ghost var k := FirstRaise(bs);
    var i := 0;
    while i < |bs|
      invariant 0 <= i <= k
      invariant Collect(bs[..i], ToolCallStep) == Some(r)
    {
      ToolCallsLoopStep(bs, i, r);
      ghost var r0 := r;
      match bs[i] {
        case RaisingBlock =>
          // `except Exception: pass`, then `return tool_calls`
          return;
        case ObjectBlock(attrs) =>
          if Get(attrs, "type") == Some(Str("tool_use")) {
            r := r + [ToolCall(GetOr(attrs, "id", Str("unknown")), GetOr(attrs, "name", Str("unknown")), GetOr(attrs, "input", Dict([])))];
          }
        case ValueBlock(v) =>
          if v.Dict? && Attr(v.entries, "type") == Str("tool_use") {
            r := r + [ToolCall(GetOr(v.entries, "id", Str("unknown")), GetOr(v.entries, "name", Str("unknown")), GetOr(v.entries, "input", Dict([])))];
          }
      }
      assert r == r0 + (if IsToolUse(bs[i]) then [ToolCallStep(bs[i]).v] else []);
      i := i + 1;
    }
    assert bs[..|bs|] == bs;
  }

  /** One more turn of the loop over a block that does not raise. */
  lemma ToolCallsLoopStep(bs: seq<Block>, i: nat, r: seq<Value>)
    requires i < |bs| && i <= FirstRaise(bs) && Collect(bs[..i], ToolCallStep) == Some(r)
    ensures bs[i].RaisingBlock? ==> i == FirstRaise(bs)
    ensures !bs[i].RaisingBlock? ==>
      i < FirstRaise(bs)
      && Collect(bs[..i + 1], ToolCallStep) == Some(r + (if IsToolUse(bs[i]) then [ToolCallStep(bs[i]).v] else []))
  {
    assert bs[..i + 1][..i] == bs[..i];
    assert bs[..i + 1][i] == bs[i];
    ToolCallStepKeeps(bs[i]);
    if !IsToolUse(bs[i]) {
      assert r + [] == r;
    }
  }

  /** The calls before the first raising block are what the loop builds over
      that prefix. */
  lemma ToolCallsPrefix(bs: seq<Block>)
    ensures Collect(bs[..FirstRaise(bs)], ToolCallStep) == Some(ToolCallsOf(Some(bs)))
  {
    var k := FirstRaise(bs);
    assert forall i :: 0 <= i < k ==> bs[..k][i] == bs[i];
    CollectRaises(bs[..k], ToolCallStep);
  }

  /** A raise ends the loop: the result is that of the blocks before the first
      raising block, and without one it is the whole loop's list. */
  lemma ToolCallsStopAtRaise(bs: seq<Block>)
    ensures ToolCallsOf(Some(bs)) == ToolCallsOf(Some(bs[..FirstRaise(bs)]))
    ensures (forall i :: 0 <= i < |bs| ==> !bs[i].RaisingBlock?) ==> Collect(bs, ToolCallStep) == Some(ToolCallsOf(Some(bs)))
  {
    var k := FirstRaise(bs);
    var p := bs[..k];
    ToolCallsPrefix(bs);
    ToolCallsPrefix(p);
    assert forall i :: 0 <= i < k ==> p[i] == bs[i];
    assert FirstRaise(p) == k;
    assert p[..k] == p;
    if forall i :: 0 <= i < |bs| ==> !bs[i].RaisingBlock? {
      assert k == |bs|;
      assert p == bs;
    }
  }

  /** A block gives a call exactly when it is `tool_use`, and the call is a
      function call. */
  lemma ToolCallStepKeeps(b: Block)
    ensures ToolCallStep(b).Keep? <==> IsToolUse(b)
    ensures ToolCallStep(b).Keep? ==>
      ToolCallStep(b).v.Dict? && Attr(ToolCallStep(b).v.entries, "type") == Str("function")
  {
    if ToolCallStep(b).Keep? {
      var e := ToolCallStep(b).v.entries;
      GetSkip(e, "type");
      GetSkip(e[1..], "type");
    }
  }

  /** Exactly the `tool_use` blocks before the first raise contribute: every
      result is a function call taken from such a block with its id, name and
      input (or the defaults), and every such block contributes. */
  lemma ToolCallsFromToolUse(bs: seq<Block>)
    ensures var r := ToolCallsOf(Some(bs));
      |r| <= FirstRaise(bs)
      && (forall j :: 0 <= j < |r| ==>
            (r[j].Dict? && Attr(r[j].entries, "type") == Str("function")
             && exists i :: 0 <= i < FirstRaise(bs) && IsToolUse(bs[i]) && ToolCallStep(bs[i]) == Keep(r[j])))
      && (forall i :: 0 <= i < FirstRaise(bs) && IsToolUse(bs[i]) ==> ToolCallStep(bs[i]).v in r)
  {
    var k := FirstRaise(bs);
    var p := bs[..k];
    ToolCallsPrefix(bs);
    CollectFrom(p, ToolCallStep);
    var r := ToolCallsOf(Some(bs));
    forall j | 0 <= j < |r|
      ensures r[j].Dict? && Attr(r[j].entries, "type") == Str("function")
      ensures exists i :: 0 <= i < k && IsToolUse(bs[i]) && ToolCallStep(bs[i]) == Keep(r[j])
    {
      var i :| 0 <= i < |p| && ToolCallStep(p[i]) == Keep(r[j]);
      assert p[i] == bs[i];
      ToolCallStepKeeps(bs[i]);
    }
    forall i | 0 <= i < k && IsToolUse(bs[i]) ensures ToolCallStep(bs[i]).v in r {
      assert p[i] == bs[i];
      ToolCallStepKeeps(bs[i]);
    }
  }

  /** Where the first raise falls in `bs + more`: in `bs` if it has one, else
      that of `more`, shifted. */
  lemma {:induction false} FirstRaiseAppend(bs: seq<Block>, more: seq<Block>)
    ensures FirstRaise(bs) < |bs| ==> FirstRaise(bs + more) == FirstRaise(bs)
    ensures FirstRaise(bs) == |bs| ==> FirstRaise(bs + more) == |bs| + FirstRaise(more)
    decreases |bs|
  {
    if bs != [] && !bs[0].RaisingBlock? {
      assert (bs + more)[1..] == bs[1..] + more;
      FirstRaiseAppend(bs[1..], more);
    } else if bs == [] {
      assert bs + more == more;
    }
  }

  /** Without a raise in `bs`, the calls of `bs + more` are those of `bs`
      followed by those of `more`. */
  lemma ToolCallsAppend(bs: seq<Block>, more: seq<Block>)
    requires forall i :: 0 <= i < |bs| ==> !bs[i].RaisingBlock?
    ensures ToolCallsOf(Some(bs + more)) == ToolCallsOf(Some(bs)) + ToolCallsOf(Some(more))
  {
    var k, km := FirstRaise(bs), FirstRaise(more);
    FirstRaiseAppend(bs, more);
    ToolCallsPrefix(bs + more);
    ToolCallsPrefix(bs);
    ToolCallsPrefix(more);
    PrefixOfAppend(bs, more, km);
    assert bs[..k] == bs;
    CollectAppend(bs, more[..km], ToolCallStep);
  }

  lemma PrefixOfAppend<T>(a: seq<T>, b: seq<T>, n: nat)
    requires n <= |b|
    ensures (a + b)[..|a| + n] == a + b[..n]
  {
  }

  /** After a raising block in `bs`, the blocks of `more` add nothing. */
  lemma ToolCallsRaiseStays(bs: seq<Block>, more: seq<Block>)
    requires exists i :: 0 <= i < |bs| && bs[i].RaisingBlock?
    ensures ToolCallsOf(Some(bs + more)) == ToolCallsOf(Some(bs))
  {
    var k := FirstRaise(bs);
    FirstRaiseAppend(bs, more);
    ToolCallsPrefix(bs + more);
    ToolCallsPrefix(bs);
    assert (bs + more)[..k] == bs[..k];
  }

  /** Blocks none of which is `tool_use` give no calls. */
  lemma ToolCallsWithoutToolUse(bs: seq<Block>)
    requires forall i :: 0 <= i < |bs| ==> !IsToolUse(bs[i])
    ensures ToolCallsOf(Some(bs)) == []
  {
    var k := FirstRaise(bs);
    var p := bs[..k];
    ToolCallsPrefix(bs);
    forall i | 0 <= i < |p| ensures ToolCallStep(p[i]) == Skip {
      assert p[i] == bs[i];
      ToolCallStepKeeps(bs[i]);
    }
    CollectAllSkip(p, ToolCallStep);
  }

  /** A loop that skips every element builds the empty list. */
  lemma {:induction false} CollectAllSkip<T>(items: seq<T>, step: T -> Step)
    requires forall i :: 0 <= i < |items| ==> step(items[i]) == Skip
    ensures Collect(items, step) == Some([])
    decreases |items|
  {
    if items != [] {
      var init := items[..|items| - 1];
      assert forall i :: 0 <= i < |init| ==> init[i] == items[i];
      CollectAllSkip(init, step);
    }
  }

  /** The calls keep the order of their blocks; after a raising block nothing
      more is added; blocks that are not `tool_use` add nothing. */
  lemma ToolCallsInOrder(bs: seq<Block>, more: seq<Block>)
    ensures (forall i :: 0 <= i < |bs| ==> !bs[i].RaisingBlock?) ==>
      ToolCallsOf(Some(bs + more)) == ToolCallsOf(Some(bs)) + ToolCallsOf(Some(more))
    ensures (exists i :: 0 <= i < |bs| && bs[i].RaisingBlock?) ==> ToolCallsOf(Some(bs + more)) == ToolCallsOf(Some(bs))
    ensures (forall i :: 0 <= i < |more| ==> !IsToolUse(more[i])) ==> ToolCallsOf(Some(bs + more)) == ToolCallsOf(Some(bs))
  {
    if exists i :: 0 <= i < |bs| && bs[i].RaisingBlock? {
      ToolCallsRaiseStays(bs, more);
    } else {
      ToolCallsAppend(bs, more);
      if forall i :: 0 <= i < |more| ==> !IsToolUse(more[i]) {
        ToolCallsWithoutToolUse(more);
        assert ToolCallsOf(Some(bs)) + [] == ToolCallsOf(Some(bs));
      }
    }
  }

  /** A lookup past a first entry with another key. */
  lemma GetSkip(entries: Entries, k: string)
    requires entries != [] && entries[0].0 != k
    ensures Get(entries, k) == Get(entries[1..], k)
  {
  }

  /** `get_common_span_attributes`: five distinct keys, the model or "unknown"
      and the normalised provider (`provider or "unknown"`). */
  function CommonSpanAttributes(sessionId: string, agentId: string, threadId: string,
                                model: Option<string>, provider: Option<string>): (r: Entries)
    ensures |r| == 5 && forall i, j :: 0 <= i < j < |r| ==> r[i].0 != r[j].0
  {
    [(AgentSessionId, Str(sessionId)),
     (AgentId, Str(agentId)),
     (AgentThreadId, Str(threadId)),
     (LlmModelName, Str(if TruthyText(model) then model.value else "unknown")),
     (LlmSystem, Str(ProviderSystemName(if TruthyText(provider) then provider.value else "unknown")))]
  }

  /** Each of the five keys holds its value. */
  lemma CommonSpanAttributesLookup(sessionId: string, agentId: string, threadId: string,
                                   model: Option<string>, provider: Option<string>)
    ensures var r := CommonSpanAttributes(sessionId, agentId, threadId, model, provider);
      Get(r, AgentSessionId) == Some(Str(sessionId)) && Get(r, AgentId) == Some(Str(agentId))
      && Get(r, AgentThreadId) == Some(Str(threadId))
      && Get(r, LlmModelName) == Some(Str(if TruthyText(model) then model.value else "unknown"))
      && Get(r, LlmSystem) == Some(Str(ProviderSystemName(if TruthyText(provider) then provider.value else "unknown")))
  {
    var r := CommonSpanAttributes(sessionId, agentId, threadId, model, provider);
    GetSkip(r, AgentId);
    GetSkip(r, AgentThreadId);
    GetSkip(r[1..], AgentThreadId);
    GetSkip(r, LlmModelName);
    GetSkip(r[1..], LlmModelName);
    GetSkip(r[2..], LlmModelName);
    assert r[1..][1..] == r[2..];
    assert r[2..][1..] == r[3..];
    GetSkip(r, LlmSystem);
    GetSkip(r[1..], LlmSystem);
    GetSkip(r[2..], LlmSystem);
    GetSkip(r[3..], LlmSystem);
    assert r[3..][1..] == r[4..];
  }
}
