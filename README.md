# NeatLogs span pipeline, modelled in Dafny

NeatLogs is a Python SDK. It hooks into the OpenTelemetry tracer provider of the
host process and captures the spans of LLM calls. It normalises each span,
picks a grouping id for it and delivers it to the NeatLogs server. This project
models the core of that SDK and proves properties of the model:

- **Span serialiser and grouping** (`hex.dfy`, `spans.dfy`). The current
  processor renders ids as fixed-width hex. It coerces attribute values to JSON
  types, one top-level value at a time. Its grouping id is the session id, else
  the thread id, else the trace id.
- **Current span processor** (`processor.dfy`). It ignores spans that have no
  OpenInference span kind. A kept span is queued, logged in dry run, or dropped.
- **Queue-based tracker** (`setup.dfy`, `tags.dfy`, `tracker.dfy`). There is
  one FIFO send queue and one worker loop. The worker stops at the `_STOP`
  sentinel. `shutdown` drains the queue and tears down the tracer provider, but
  only when the tracker owns it. There are also the constructor defaults, the
  dry-run overrides and the tag list.
- **Semantic-convention helpers** (`semconv.dfy`). These normalise provider
  names and clean messages and tools. They also extract tool calls and build
  the five common span attributes.
- **Older core** (`context.dfy`, `legacy_core.dfy`, `legacy_processor.dfy`).
  It has three context slots and the `SessionIdGenerator`. Its tracker starts
  one sender thread per call. Its processor pulls model, tokens, messages and
  status out of LLM spans.
- **Package entry points** (`package.dfy`). `init` creates the tracker once.
  `add_tags` needs a tracker. There is also the exit hook.

Python values are one datatype, `PyValues.Value` (`values.dfy`). A dict is an
ordered list of key/value pairs. An object whose `str()` raises is
`Other(None)`. `Truthy`, `StrOf`, `Iterate`, `Len` and `Add` give Python's
truthiness, `str()`, iteration, `len()` and `+` on the JSON-native types, with
the limits listed under "Left out". Where these raise, the result is `None`.

The worker is modelled as a sequential loop. The tracker's `posts` field
records every POST body, in order. `delivered[i]` records whether post `i`
succeeded. That outcome comes from the oracle `net`, combined with whether
`requests` can encode the body as JSON. A failed post is only logged, so the
drain visibly goes on. `json.loads` of a span's `input.value` is an oracle
parameter: its parsed value, or `None` when it raises. Fresh uuids are
parameters too, and so are the ids the random generator returns.

A second `shutdown` is not a no-op: it puts another `_STOP` that no worker
takes, and `join` blocks (see Findings). `_enqueue_span` has no shut-down check,
so an item queued after shutdown is never drained; the model does the same.

## Model

| member | source | states |
|---|---|---|
| Hex.HexIdRoundTrip | neatlogs/otel/new_processor.py:22-25 | for 0 ≤ n < 16^w, zero included, the text has exactly w lowercase hex digits and parses back to n |
| Hex.HexIdNone | neatlogs/otel/new_processor.py:22-24 | an absent id gives no text |
| Hex.HexIdWidens | neatlogs/otel/new_processor.py:25 | an id of 16^w or more gets more than w digits and is never cut |
| Hex.HexIdNonEmpty | neatlogs/otel/new_processor.py:25 | every id renders to non-empty text |
| Spans.Coerce | neatlogs/otel/new_processor.py:37-40 | a str/int/float/bool/list/dict/None value passes through unchanged; any other becomes its `str()`; fails exactly when that `str()` raises |
| Spans.CoerceAll | neatlogs/otel/new_processor.py:35-40 | succeeds iff every value coerces; the result has the same keys in the same order, each value being the coercion of the original |
| Spans.CoerceLoop | neatlogs/otel/new_processor.py:35-40 | the dictionary-filling loop returns exactly `CoerceAll` of the entries |
| Spans.SerializeSpan | neatlogs/otel/new_processor.py:28-67 | the loops and record building return exactly `Serialized(span)` |
| Spans.SerializedAttributes | neatlogs/otel/new_processor.py:35-40 | the attribute keys are kept exactly; a JSON-native value is kept as it is, nested values included; any other value becomes its string form, at the top level only |
| Spans.SerializedResource | neatlogs/otel/new_processor.py:42-62 | no resource gives empty resource attributes; otherwise they follow the same coercion rule |
| Spans.SerializedFailsOnlyOnStr | neatlogs/otel/new_processor.py:35-48 | serialisation fails iff some top-level attribute or resource value has a `str()` that raises |
| Spans.CoerceAllIdempotent | neatlogs/otel/new_processor.py:35-48 | every coerced value is JSON-native; serialising the result again changes nothing |
| Spans.SerializedHeader | neatlogs/otel/new_processor.py:50-66 | name and times are copied; the trace and span ids are 32 and 16 hex digits that parse back; the parent is absent iff the span has none, else it is 16 hex digits; the status is the code's name, or "UNSET" without a status |
| Spans.ChooseExternalTraceId | neatlogs/otel/new_processor.py:70-93 | the choice fails iff the id it picks, a truthy session id or else a truthy thread id, has a `str()` that raises |
| Spans.GroupingPrecedence | neatlogs/otel/new_processor.py:77-89 | a truthy session id wins as its `str()`; a falsy one falls through to a truthy thread id, likewise; with neither, the span's trace id |
| Spans.FreshIdUnreachable | neatlogs/otel/new_processor.py:87-93 | for a serialised span the uuid fallback is never reached, because the hex trace id is never empty |
| SpanProcessor.InfraSpansIgnored | neatlogs/otel/new_processor.py:104-113 | a span is ignored iff it is `None` or has no truthy `openinference.span.kind` |
| SpanProcessor.EnqueuedExactly | neatlogs/otel/new_processor.py:115-125 | a span is queued iff it has a kind, it serialises, a grouping id is found, and sending is on without dry run; the item holds the grouping id, the serialised span and the tracker's key |
| SpanProcessor.DryRunNeverEnqueues | neatlogs/otel/new_processor.py:126-129 | dry run never queues or drops; the log line is the fixed prefix followed by the grouping id |
| SpanProcessor.FailsOnlyOnStr | neatlogs/otel/new_processor.py:131-133 | the except path is taken only when some `str()` raises during serialisation or grouping |
| SpanProcessor.NeatlogsSpanProcessor.OnEnd | neatlogs/otel/new_processor.py:103-133 | the outcome is `OnEndDecision`; the queue grows by exactly the queued item and nothing else of the tracker changes (ids, key and switches are fixed at construction) |
| SpanProcessor.EndedSpansAreSent | neatlogs/otel/new_processor.py:124-125 | spans ended while the tracker runs are posted once each at shutdown, in the order they ended, with the tracker's key |
| Tracker.SendSync | neatlogs/new_core.py:278-290 | no body iff sending is off; the body holds the item's key or else the tracker's, the item's trace id and the serialised span |
| Tracker.DrainStopsAtSentinel | neatlogs/new_core.py:306-311 | the worker stops at the first sentinel, leaves what follows untouched, and posts only the items before it |
| Tracker.DrainWithoutSentinel | neatlogs/new_core.py:306-318 | without a sentinel the worker empties the queue and keeps waiting |
| Tracker.DrainPostsInOrder | neatlogs/new_core.py:306-318 | with sending on, one post per queued item, in queue order, each with that item's body; with sending off, none |
| Tracker.DrainStep | neatlogs/new_core.py:306-318 | one turn of the loop leaves the rest of the drain ahead of it; after the sentinel nothing is left |
| Tracker.LLMTracker.constructor | neatlogs/new_core.py:114-147 | the id defaults, "default-agent", `tags or []`, the dry-run overrides and the OpenTelemetry state; an empty queue and a live worker |
| Tracker.LLMTracker.EnqueueSpan | neatlogs/new_core.py:303-304 | appends one item at the back, counts one more unfinished task, and changes nothing else |
| Tracker.LLMTracker.LogLlmCall | neatlogs/new_core.py:339-352 | the JSON log line encodes iff the span is JSON-encodable; it queues only then, and only when sending is on; nothing else changes |
| Tracker.LLMTracker.AddTags | neatlogs/new_core.py:354-360 | the tags become `AppendNew(old tags, incoming)`; nothing else changes |
| Tracker.LLMTracker.WorkerStep | neatlogs/new_core.py:306-318 | one `get` and one `task_done`; the sentinel ends the worker; an item is posted once, its outcome is recorded, and the worker stays alive |
| Tracker.LLMTracker.RunWorker | neatlogs/new_core.py:306-318 | the loop posts exactly what `Drain` describes, records each outcome from the oracle, and leaves the queue empty whatever the outcomes |
| Tracker.LLMTracker.Shutdown | neatlogs/new_core.py:362-391 | with a live worker everything queued is posted, the queue is empty, and the provider is shut down only when owned; with no worker the sentinel stays queued and `join` blocks |
| Tracker.LLMTracker.ShutdownOnce | neatlogs/new_core.py:362-391 | the guarded shutdown: the same first call, and a later call that changes nothing |
| Tracker.ShutdownTwiceBlocks | neatlogs/new_core.py:372-375 | a second `shutdown` leaves one sentinel queued with one unfinished task, and blocks |
| Tracker.ShutdownOnceTwiceCompletes | neatlogs/new_core.py:362-391 | with the guard, both calls return; the queue is drained once and the provider shut down at most once |
| Tracker.AttachedProviderSurvives | neatlogs/new_core.py:386-391 | a tracker attached to a host's provider never shuts it down, whatever was queued |
| Tracker.ShutdownPostsQueued | neatlogs/new_core.py:372-379 | with N items queued, shutdown posts exactly N bodies in enqueue order, each outcome being that post's own, failures included |
| Tags.AppendNewSnoc | neatlogs/new_core.py:356-358 | one more incoming tag is one more turn of the loop: appended iff not present |
| Tags.AppendNewMembers | neatlogs/new_core.py:354-360 | a tag is in the result iff it was in the old tags or among the incoming ones |
| Tags.AppendNewIsFirstNew | neatlogs/new_core.py:354-360 | the result is the old tags followed by the first occurrences of the new tags that were not present |
| Tags.FirstNewFresh | neatlogs/new_core.py:354-360 | what is appended avoids the old tags and has no duplicates |
| Tags.FirstNewWithin | neatlogs/new_core.py:354-360 | what is appended comes from the incoming tags |
| Tags.AppendNewKeepsNoDup | neatlogs/new_core.py:354-360 | a duplicate-free tag list stays duplicate-free |
| Tags.AppendNewPresent | neatlogs/new_core.py:354-360 | adding tags that are all present changes nothing |
| Tags.AppendNewIdempotent | neatlogs/new_core.py:354-360 | adding the same tags twice is the same as adding them once |
| TrackerSetup.TextOr | neatlogs/new_core.py:129-131 | a truthy argument is kept, otherwise the default is used |
| TrackerSetup.TagsOr | neatlogs/new_core.py:132 | absent tags become the empty list |
| TrackerSetup.DeriveFlags | neatlogs/new_core.py:136-147 | dry run turns sending off and forces OpenTelemetry and console export on; otherwise the arguments stand |
| TrackerSetup.SetupOtelOutcome | neatlogs/new_core.py:171-276 | OpenTelemetry stays enabled iff setup ran to the end; the provider is then stored and owned iff created here, and carries the span processor iff it supports processors |
| TrackerSetup.OnlyOwnedProviderShutDown | neatlogs/new_core.py:386 | the shutdown condition holds iff OpenTelemetry was requested, setup succeeded and no provider existed before |
| TrackerSetup.LegacyShutsDownHostProvider | neatlogs/core.py:428 | the older tracker's condition holds whenever setup succeeded, with a host's provider included |
| TrackerSetup.ProcessorOutlivesFailedSetup | neatlogs/new_core.py:236-276 | a failure after the span processor was added leaves it attached while OpenTelemetry counts as off |
| SemConv.CanonicalNamesFixed | neatlogs/semconv.py:140-151 | every mapping target is a canonical name, and each canonical name is lower-case and maps to itself |
| SemConv.ProviderAliases | neatlogs/semconv.py:138-152 | "google" and "google_genai" map to "gemini" and "azure" to "azure_openai", ignoring case; any other name becomes its lower case |
| SemConv.ProviderNameNormal | neatlogs/semconv.py:138-152 | the result ignores the input's case, is lower-case, and normalising it again changes nothing |
| SemConv.FormatMessagesForAttribute | neatlogs/semconv.py:155-174 | the loop returns exactly `FormattedMessages` |
| SemConv.MessageStepClean | neatlogs/semconv.py:161-171 | a message is kept iff it is a dict and `str()` of its content succeeds; it then has its role (default "unknown"), content cut to 2000 characters, and `tool_calls` only when present |
| SemConv.FormattedMessagesClean | neatlogs/semconv.py:155-174 | the result always encodes as a JSON list, the fallback included, and every element is a clean message |
| SemConv.FormattedMessagesInOrder | neatlogs/semconv.py:161-171 | the kept messages keep their order: formatting `a + b` gives the messages of `a` followed by those of `b` |
| SemConv.NonDictMessageDropped | neatlogs/semconv.py:162 | an entry that is not a dict contributes no message |
| SemConv.FormatToolsForAttribute | neatlogs/semconv.py:177-192 | the loop returns exactly `FormattedTools` |
| SemConv.FormattedToolsClean | neatlogs/semconv.py:181-192 | the result always encodes as a JSON list; each tool has a name (default "unknown"), a type (default "function") and a description of at most 500 characters |
| SemConv.ExtractToolCallsData | neatlogs/semconv.py:195-218 | the loop returns exactly `ToolCallsOf`: nothing for a non-iterable input, otherwise the calls collected before the first block on which the loop raises |
| SemConv.ToolCallsStopAtRaise | neatlogs/semconv.py:198-218 | a raise inside the loop is swallowed and the partial list returned: the result over `bs` is the result over `bs` cut at its first raising block; with no raising block it is the whole loop's list |
| SemConv.ToolCallStepKeeps | neatlogs/semconv.py:200-215 | a block contributes iff it is a `tool_use` block; its call has type "function", id and name defaulting to "unknown" and arguments to `{}` |
| SemConv.ToolCallsFromToolUse | neatlogs/semconv.py:199-215 | every result comes from a `tool_use` block before the first raise, and every such block contributes |
| SemConv.ToolCallsInOrder | neatlogs/semconv.py:198-217 | the calls keep block order; after a raising block later blocks add nothing; blocks that are not `tool_use` add nothing |
| SemConv.CommonSpanAttributes | neatlogs/semconv.py:221-230 | exactly five distinct keys |
| SemConv.CommonSpanAttributesLookup | neatlogs/semconv.py:224-230 | each key holds its given id; the model is "unknown" when falsy; the system is the normalised provider, with "unknown" for a falsy one |
| ContextSlots.TaskContext.constructor | neatlogs/core.py:22-32 | every slot starts at its default: no framework, not suppressed, no node span |
| ContextSlots.TaskContext.SetCurrentFramework | neatlogs/core.py:35-37 | sets the framework slot only |
| ContextSlots.TaskContext.GetCurrentFramework | neatlogs/core.py:40-42 | reads the framework slot |
| ContextSlots.TaskContext.ClearCurrentFramework | neatlogs/core.py:45-47 | restores the framework slot's default only |
| ContextSlots.TaskContext.SuppressPatching | neatlogs/core.py:50-52 | sets the suppression flag only |
| ContextSlots.TaskContext.ReleasePatching | neatlogs/core.py:55-57 | clears the suppression flag only |
| ContextSlots.TaskContext.IsPatchingSuppressed | neatlogs/core.py:60-62 | reads the suppression flag |
| ContextSlots.TaskContext.SetActiveNodeSpan | neatlogs/core.py:71-73 | sets the node-span slot only |
| ContextSlots.TaskContext.GetActiveNodeSpan | neatlogs/core.py:76-78 | reads the node-span slot |
| ContextSlots.TaskContext.ClearActiveNodeSpan | neatlogs/core.py:81-83 | restores the node-span slot's default only |
| ContextSlots.SlotsRoundTrip | neatlogs/new_core.py:23-82 | defaults until set; each getter returns what its setter stored, leaving the other slots alone; clear and release restore the defaults |
| LegacyCore.ThreadPost | neatlogs/core.py:324-338 | a sender thread posts iff the call data encodes as JSON; the body holds the data, its trace id, and its key or else the tracker's |
| LegacyCore.SessionIdGenerator.GenerateSpanId | neatlogs/core.py:233-234 | always the random generator's id |
| LegacyCore.SessionIdGenerator.GenerateTraceId | neatlogs/core.py:236-239 | the first call draws once and caches the id; every later call returns the cached id and draws nothing |
| LegacyCore.SessionTraceIds | neatlogs/core.py:229-239 | a fresh generator returns the first draw for every trace id and draws exactly once |
| LegacyCore.LegacyTracker.constructor | neatlogs/core.py:133-177 | the same defaults and dry-run overrides as the current tracker; no sender threads yet |
| LegacyCore.LegacyTracker.SendDataToServer | neatlogs/core.py:310-362 | with sending off nothing starts; otherwise one sender thread for this data is appended |
| LegacyCore.LegacyTracker.LogLlmCall | neatlogs/core.py:383-396 | the log line encodes iff the data is JSON-encodable; a thread starts only then, and only when sending is on; nothing else changes |
| LegacyCore.LegacyTracker.AddTags | neatlogs/core.py:398-404 | the tags become `AppendNew(old tags, incoming)`; nothing else changes |
| LegacyCore.LegacyTracker.Shutdown | neatlogs/core.py:406-437 | the provider is shut down whenever OpenTelemetry is on and a provider is held, owned or not, and again on every call; nothing else changes |
| LegacyCore.HostProviderShutDown | neatlogs/core.py:428-435 | unlike the current tracker, the older one shuts down a host's provider it only attached to |
| LegacyCore.LoggedCallsSent | neatlogs/core.py:383-396 | every logged call gets its own sender thread, in order, posting under the call's key or else the tracker's |
| LegacyCore.LegacyRegistry.GetTracker | neatlogs/core.py:447-451 | returns this module's slot |
| LegacyProcessor.NotLlmIgnored | neatlogs/otel/processor.py:44-61 | a span is ignored iff it is `None` or not an LLM span: kind "LLM", or a `llm.model_name` or `gen_ai.system` key |
| LegacyProcessor.ModelAndProviderChains | neatlogs/otel/processor.py:93-104 | model and provider are the first truthy attribute of their chain, else "unknown" |
| LegacyProcessor.TokenChains | neatlogs/otel/processor.py:107-120 | prompt and completion tokens are the first truthy attribute, else 0; the total is the explicit attribute when truthy, else their sum |
| LegacyProcessor.CandidatesBranchNeverFires | neatlogs/otel/processor.py:167-175 | a truthy `output.value` already makes the completion truthy, so the re-parse branch never runs |
| LegacyProcessor.StatusMapping | neatlogs/otel/processor.py:199-206 | "FAILURE" with a report holding the description iff the status is an error with a truthy description; otherwise "SUCCESS" with no report |
| LegacyProcessor.PartsTextAppend | neatlogs/otel/processor.py:147-150 | the text of a list of parts is the text of its front followed by the text of the rest |
| LegacyProcessor.JoinPartsText | neatlogs/otel/processor.py:147-150 | the `+=` loop returns exactly `PartsText` |
| LegacyProcessor.ContentsMessagesEach | neatlogs/otel/processor.py:143-152 | one message per "contents" element, in order, when none raises; otherwise the messages of the elements before the first that raises |
| LegacyProcessor.ContentsRaiseStays | neatlogs/otel/processor.py:144-152 | once the loop has raised, later elements change nothing |
| LegacyProcessor.ContentMessageShape | neatlogs/otel/processor.py:145-152 | a message has the element's role, default "user", and the concatenated texts of its parts |
| LegacyProcessor.InputMessagesCases | neatlogs/otel/processor.py:133-165 | no input gives no messages; a non-JSON mime type or a failed parse gives one user message with `str(value)`; parsed "contents" give one message per element |
| LegacyProcessor.ExtractInputMessages | neatlogs/otel/processor.py:126-165 | the message-building loops return exactly `InputMessages` |
| LegacyProcessor.SentExactly | neatlogs/otel/processor.py:209-239 | a span is sent iff it is an LLM span, processing succeeds, and sending is on without dry run; the data carries the chains' values, the tracker's session, agent and thread ids, tags and key, the status mapping and the hex span id |
| LegacyProcessor.CallDataFields | neatlogs/otel/processor.py:209-235 | built call data carries the chains' model, provider, prompt tokens and total; the tracker's session id, tags and key; the status mapping; and the span id as 16 hex digits |
| LegacyProcessor.DispatchSends | neatlogs/otel/processor.py:237-249 | the data is sent iff sending is on and dry run is off, and it is sent unchanged; with both off nothing happens |
| LegacyProcessor.DryRunSummary | neatlogs/otel/processor.py:240-249 | in dry run nothing is sent; the first line holds "Processed span {id} for {model}" followed by "Input Messages: {count}"; a second line holds the messages iff there are any |
| LegacyProcessor.DryRunNeverSends | neatlogs/otel/processor.py:238-246 | a dry-run LLM span is summarised under its 16-digit hex id and never sent |
| LegacyProcessor.LegacySpanProcessor.ProcessLlmSpan | neatlogs/otel/processor.py:79-235 | builds exactly `CallDataOf`: `None` when the debug line's or the completion's `str()` raises, the token sum is a TypeError, message building lets an exception escape, or the span has no status |
| LegacyProcessor.LegacySpanProcessor.DispatchCall | neatlogs/otel/processor.py:237-249 | the outcome is `Dispatch`; a sender thread starts exactly for a sent span |
| LegacyProcessor.LegacySpanProcessor.OnEnd | neatlogs/otel/processor.py:40-69 | the outcome is `OnEndDecision`; a sent span adds exactly one sender thread and nothing else of the tracker changes |
| Package.PackageState.Init | neatlogs/__init__.py:24-110 | the first call creates a tracker with no ids given, sending on and the given switches; later calls return that tracker and ignore their arguments; `new_core`'s slot is untouched |
| Package.PackageState.GetTracker | neatlogs/new_core.py:403-407 | returns `new_core`'s slot |
| Package.PackageState.AddTags | neatlogs/__init__.py:137-152 | RuntimeError iff `get_tracker` finds no tracker; otherwise the tracker's tags become `AppendNew(old, incoming)` and nothing else of it changes |
| Package.PackageState.ShutdownHook | neatlogs/__init__.py:159-165 | nothing iff there is no tracker; a live tracker's queue is drained and its owned provider shut down; a tracker already shut down gets another sentinel and the hook blocks |
| Package.PackageState.InitShared | neatlogs/__init__.py:77-91 | `init` with one shared slot: the tracker it creates is the one `get_tracker` returns |
| Package.InitThenAddTagsFails | neatlogs/__init__.py:72-79 | right after `init`, `add_tags` raises, the exit hook does nothing, and the worker is left alive |
| Package.InitSharedThenAddTags | neatlogs/__init__.py:148-164 | with the shared slot, `add_tags` reaches the tracker `init` created and the exit hook shuts it down |

## Left out

- HTTP delivery is not modelled: `requests.post`, the URL from `NEATLOGS_API_URL`, the timeouts and the response status. Each post is recorded, and its success is the oracle `net` combined with JSON encodability.
- Threads, locks, daemon threads, blocking `get` and `join`, and join timeouts are not modelled. The worker is a sequential loop. The older tracker's sender threads are a list of the data each thread was given, posted by `ThreadPost`.
- The `timestamp` of every POST body is not modelled, and neither is `datetime.now()`.
- Floating point is not modelled exactly. The older processor's times are exact reals (`ns / 1e9`). A float's `str()` is carried in the value.
- `uuid4` and `RandomIdGenerator` are not modelled. Their values are parameters.
- Logging, `print` and the file logger are not modelled. A print matters only when its `str()` raises, and that case is modelled.
- The exporters, `Resource.create` and proxy-provider detection of `_setup_otel` are left out. Only the resulting OpenTelemetry state and ownership are kept, through `SetupEnv`.
- `instrument_all` in neatlogs/instrumentation/manager.py is not part of this model. It only probes imports and calls foreign instrumentors.
- The `debug`, `otlp_endpoint` and `otlp_headers` arguments of `init` are not modelled. Only the `otlp` exporter and the log level depend on them.
- Tag lists are values. The caller's list, which `tags or []` shares with the tracker, is not aliased.
- Truthy, Iterate, Len, Dumpable: tuples and sets are not modelled as containers. They are `Other` values, which are always truthy, not iterable, have no length and do not encode as JSON, where Python's `()` is falsy, a tuple iterates and `json.dumps` writes it as an array. A subclass of `str` or `int`, such as a string enum, is `Other` too, where `json.dumps` encodes it; so `SpanDumpable`, `CallDumpable` and `Accepted` can be false for a value Python encodes. A tuple of message dicts given to `format_messages_for_attribute` becomes the fallback in the model, where Python formats each message.
- ReprOf: Python's `repr` of a string is approximated. Every string is wrapped in single quotes and nothing is escaped, where Python switches to double quotes around a `'` and escapes backslashes, newlines and other control characters. An `Other` inside a list or dict is rendered by its `str()` text, not its `repr`. So the `str()` of a list or dict can differ from Python's, and so can the point where a message content is cut at 2000 characters.
- `Lower` folds ASCII letters only. Python's `lower()` folds all of Unicode.
- `on_start`, `shutdown` and `force_flush` of both processors do nothing and have no model.
- `current_span_id_context` is declared but never used, so it has no model.
- Per-task isolation of the context variables is not modelled. One `TaskContext` is one module's slots in one async task; the copying of a context into a new task, and the independence of the two modules' `ContextVar` objects, are not captured.
- LegacyProcessor.CompletionOf: the Gemini `candidates` re-parse branch is not modelled. `CandidatesBranchNeverFires` proves that it cannot run.
- The OpenInference constant names are the library's real attribute strings. `LLM_REQUEST_MODEL` and `LLM_RESPONSE_MODEL` are the same key.
- `get_langchain_callback_handler` is left out. It only imports an integration module, which is not part of this model.

## Findings

| source | as written | input that shows it | evidently intended | confidence | as-written member | corrected member |
|---|---|---|---|---|---|---|
| neatlogs/__init__.py:72-79 | `init` stores the tracker in the package's own `_global_tracker`. `get_tracker` is imported from `new_core` and reads that module's slot, which nothing assigns | `init(api_key="k")`, then `add_tags(["x"])`, then interpreter exit | `add_tags` reaches the tracker `init` created, and the exit hook flushes its queue | not executed | Package.InitThenAddTagsFails | Package.InitSharedThenAddTags |
| neatlogs/new_core.py:372-375 | a second `shutdown` puts another `_STOP` that no worker takes, so `join` waits for ever | `t.shutdown()` twice on the same tracker | the second call returns and changes nothing | not executed | Tracker.ShutdownTwiceBlocks | Tracker.ShutdownOnceTwiceCompletes |
