/** The current tracker (neatlogs/new_core.py): spans handed over by the span
    processor wait in a FIFO send queue that one worker drains, posting each
    to the server, until it takes the stop sentinel that `shutdown` enqueues. */
module Tracker {
  import opened PyValues
  import opened Spans
  import opened Tags
  import opened TrackerSetup

  /** `NewLLMCallData` (neatlogs/new_core.py:89-95). */
  datatype CallData = CallData(traceId: string, span: SerializedSpan, apiKey: Option<string>)

  /** An entry of the send queue: call data or the `_STOP` sentinel. */
  datatype QueueEntry = Item(data: CallData) | Stop

  /** The JSON body of one POST (the timestamp is not modelled). */
  datatype Payload = Payload(projectAPIKey: Option<string>, externalTraceId: string, dataDump: SerializedSpan)

  predicate EntriesJson(entries: Entries) {
    forall i :: 0 <= i < |entries| ==> Dumpable(entries[i].1)
  }

  /** Whether `json.dumps` accepts a serialised span. */
  predicate SpanDumpable(s: SerializedSpan) {
    EntriesJson(s.attributes) && EntriesJson(s.resourceAttributes)
  }

  /** The body `_send_to_server_sync` posts for `data`, or `None` when sending is
      disabled and it returns at once. */
  function SendSync(sending: bool, trackerKey: Option<string>, data: CallData): (r: Option<Payload>)
    ensures r.Some? <==> sending
    ensures r.Some? ==> r.value.externalTraceId == data.traceId && r.value.dataDump == data.span
    ensures r.Some? && TruthyText(data.apiKey) ==> r.value.projectAPIKey == data.apiKey
    ensures r.Some? && !TruthyText(data.apiKey) ==> r.value.projectAPIKey == trackerKey
  {
    if sending then Some(PayloadFor(trackerKey, data)) else None
  }

  function PayloadFor(trackerKey: Option<string>, data: CallData): Payload {
    Payload(OrText(data.apiKey, trackerKey), data.traceId, data.span)
  }

  /** Whether the POST of a body with span `s` succeeds: `requests` must encode
      the body as JSON, and `networkOk` is the oracle's answer for the request
      (URL, connection and HTTP status). */
  predicate Accepted(s: SerializedSpan, networkOk: bool) {
    SpanDumpable(s) && networkOk
  }

  function PostsOf(body: Option<Payload>): (ps: seq<Payload>)
    ensures |ps| == (if body.Some? then 1 else 0)
  {
    match body
    case Some(p) => [p]
    case None => []
  }

  /** The worker's run over queue contents `q`: the bodies it posts, what is
      left behind, and whether it took the sentinel (and so exited). */
  datatype Drained = Drained(posts: seq<Payload>, rest: seq<QueueEntry>, stopped: bool)

  function Drain(sending: bool, key: Option<string>, q: seq<QueueEntry>): Drained
    decreases |q|
  {
    if q == [] then Drained([], [], false)
    else if q[0].Stop? then Drained([], q[1..], true)
    else
      var d := Drain(sending, key, q[1..]);
      Drained(PostsOf(SendSync(sending, key, q[0].data)) + d.posts, d.rest, d.stopped)
  }

  predicate NoStop(q: seq<QueueEntry>) {
    forall i :: 0 <= i < |q| ==> q[i].Item?
  }

  /** The queue contents holding `ds`, in order. */
  function Items(ds: seq<CallData>): (q: seq<QueueEntry>)
    ensures |q| == |ds| && NoStop(q)
    ensures forall i :: 0 <= i < |ds| ==> q[i] == Item(ds[i])
  {
    seq(|ds|, i requires 0 <= i < |ds| => Item(ds[i]))
  }

  lemma ItemsSnoc(ds: seq<CallData>, d: CallData)
    ensures Items(ds + [d]) == Items(ds) + [Item(d)]
  {
  }

  /** The bodies posted for `ds` when each is sent once, in order. */
  function Deliveries(ds: seq<CallData>, key: Option<string>): (ps: seq<Payload>)
    ensures |ps| == |ds| && forall i :: 0 <= i < |ds| ==> ps[i] == PayloadFor(key, ds[i])
  {
    seq(|ds|, i requires 0 <= i < |ds| => PayloadFor(key, ds[i]))
  }

  /** The worker stops at the first sentinel and never touches what follows it. */
  lemma {:induction false} DrainStopsAtSentinel(sending: bool, key: Option<string>, q: seq<QueueEntry>, later: seq<QueueEntry>)
    requires NoStop(q)
    ensures Drain(sending, key, q + [Stop] + later).stopped
    ensures Drain(sending, key, q + [Stop] + later).rest == later
    ensures Drain(sending, key, q + [Stop] + later).posts == Drain(sending, key, q).posts
    decreases |q|
  {
    if q == [] {
      assert q + [Stop] + later == [Stop] + later;
    } else {
      assert (q + [Stop] + later)[1..] == q[1..] + [Stop] + later;
      DrainStopsAtSentinel(sending, key, q[1..], later);
    }
  }

  /** Without a sentinel the worker empties the queue and keeps waiting. */
  lemma {:induction false} DrainWithoutSentinel(sending: bool, key: Option<string>, q: seq<QueueEntry>)
    requires NoStop(q)
    ensures !Drain(sending, key, q).stopped && Drain(sending, key, q).rest == []
    decreases |q|
  {
    if q != [] {
      DrainWithoutSentinel(sending, key, q[1..]);
    }
  }

  /** With sending enabled the worker makes exactly one attempt per queued item,
      in queue order, each with that item's body; with sending disabled none. */
  lemma {:induction false} DrainPostsInOrder(sending: bool, key: Option<string>, ds: seq<CallData>)
    ensures !sending ==> Drain(sending, key, Items(ds)).posts == []
    ensures sending ==> Drain(sending, key, Items(ds)).posts == Deliveries(ds, key)
    decreases |ds|
  {
    if ds != [] {
      assert Items(ds)[1..] == Items(ds[1..]);
      DrainPostsInOrder(sending, key, ds[1..]);
      if sending {
        var t := Drain(sending, key, Items(ds[1..])).posts;
        assert Drain(sending, key, Items(ds)).posts == [PayloadFor(key, ds[0])] + t;
        assert forall i :: 0 < i < |ds| ==> ds[1..][i - 1] == ds[i];
      }
    }
  }

  /** One turn of the worker keeps the drain on course: after an item the rest
      of the run is still ahead, after the sentinel nothing is left. */
  lemma DrainStep(sending: bool, key: Option<string>, before: seq<Payload>, q: seq<QueueEntry>,
                  after: seq<Payload>, total: seq<Payload>)
    requires q != [] && Drain(sending, key, q).stopped && Drain(sending, key, q).rest == []
    requires total == before + Drain(sending, key, q).posts
    requires q[0].Item? ==> after == before + PostsOf(SendSync(sending, key, q[0].data))
    requires q[0].Stop? ==> after == before
    ensures q[0].Item? ==>
      (q[1..] != [] && Drain(sending, key, q[1..]).stopped && Drain(sending, key, q[1..]).rest == []
       && total == after + Drain(sending, key, q[1..]).posts)
    ensures q[0].Stop? ==> q[1..] == [] && total == after
  {
    if q[0].Item? {
      var a := PostsOf(SendSync(sending, key, q[0].data));
      var d := Drain(sending, key, q[1..]).posts;
      assert before + (a + d) == after + d;
    }
  }

  /** What `shutdown` reports: it returned, or `join` waits forever on a queue
      no worker drains any more. */
  datatype ShutdownResult = Completed | JoinBlocked

  /** `LLMTracker` (neatlogs/new_core.py:98-393). */
  class LLMTracker {
    const sessionId: string
    const agentId: string
    const threadId: string
    var tags: seq<string>
    const apiKey: Option<string>
    const dryRun: bool
    const enableServerSending: bool
    var otel: OtelSetup
    /** The contents of `_send_queue` and its count of unfinished tasks. */
    var queue: seq<QueueEntry>
    var unfinished: nat
    /** Whether `_sender_thread` is still running its loop. */
    var workerAlive: bool
    /** The bodies posted so far, in order, and for each whether the server
        accepted it (`false`: the request raised or returned an error status,
        which is logged and otherwise ignored). */
    var posts: seq<Payload>
    var delivered: seq<bool>
    /** How many times the tracer provider's `shutdown` was called. */
    var providerShutdowns: nat

    /** The queue's task count matches its contents (the worker calls
        `task_done` once per item it takes); every post has an outcome; dry run
        never sends; an enabled OpenTelemetry has a provider and knows whether
        it owns it. */
    ghost predicate Consistent()
      reads this
    {
      unfinished == |queue| && |delivered| == |posts|
      && (dryRun ==> !enableServerSending)
      && (otel.enabled ==> otel.providerPresent && otel.owns.Some?)
    }

    /** Outside `shutdown`, no sentinel waits in the queue while the worker runs. */
    ghost predicate Valid()
      reads this
    {
      Consistent() && (workerAlive ==> NoStop(queue))
    }

    /** `__init__`: `freshSession` and `freshThread` are the `str(uuid4())` values
        used when no id is given; `env` describes the OpenTelemetry runtime. */
    constructor (apiKey: Option<string>, sessionId: Option<string>, agentId: Option<string>, threadId: Option<string>,
                 tags: Option<seq<string>>, enableServerSending: bool, enableOtel: bool, consoleExport: bool, dryRun: bool,
                 freshSession: string, freshThread: string, env: SetupEnv)
      ensures Valid()
      ensures this.sessionId == TextOr(sessionId, freshSession)
      ensures this.agentId == TextOr(agentId, DefaultAgentId)
      ensures this.threadId == TextOr(threadId, freshThread)
      ensures this.tags == TagsOr(tags) && this.apiKey == apiKey && this.dryRun == dryRun
      ensures this.enableServerSending == DeriveFlags(dryRun, enableServerSending, enableOtel, consoleExport).sending
      ensures this.otel == InitialOtel(DeriveFlags(dryRun, enableServerSending, enableOtel, consoleExport).otel, env)
      ensures queue == [] && unfinished == 0 && workerAlive && posts == [] && delivered == [] && providerShutdowns == 0
    {
      var flags := DeriveFlags(dryRun, enableServerSending, enableOtel, consoleExport);
      this.sessionId := TextOr(sessionId, freshSession);
      this.agentId := TextOr(agentId, DefaultAgentId);
      this.threadId := TextOr(threadId, freshThread);
      this.tags := TagsOr(tags);
      this.apiKey := apiKey;
      this.dryRun := dryRun;
      this.enableServerSending := flags.sending;
      queue := [];
      unfinished := 0;
      workerAlive := true;
      posts := [];
      delivered := [];
      providerShutdowns := 0;
      this.otel := if flags.otel then SetupOtel(env) else NoOtel;
    }

    /** `_enqueue_span`: `put` appends and counts one more unfinished task. */
    method EnqueueSpan(data: CallData)
      requires Valid()
      modifies this
      ensures Valid()
      ensures queue == old(queue) + [Item(data)] && unfinished == old(unfinished) + 1
      ensures tags == old(tags) && posts == old(posts) && delivered == old(delivered) && workerAlive == old(workerAlive)
      ensures otel == old(otel) && providerShutdowns == old(providerShutdowns)
    {
      queue := queue + [Item(data)];
      unfinished := unfinished + 1;
    }

    /** `log_llm_call`: the JSON log line must encode, otherwise `json.dumps`
        raises (`ok` false) before anything is enqueued; then the data is
        enqueued when server sending is on. */
    method LogLlmCall(data: CallData) returns (ok: bool)
      requires Valid()
      modifies this
      ensures Valid()
      ensures ok == SpanDumpable(data.span)
      ensures queue == old(queue) + (if ok && enableServerSending then [Item(data)] else [])
      ensures unfinished == |queue|
      ensures tags == old(tags) && posts == old(posts) && delivered == old(delivered) && workerAlive == old(workerAlive)
      ensures otel == old(otel) && providerShutdowns == old(providerShutdowns)
    {
      ok := SpanDumpable(data.span);
      if ok && enableServerSending {
        EnqueueSpan(data);
      }
    }

    /** `add_tags`: each tag is appended unless already present. */
    method AddTags(incoming: seq<string>)
      modifies this
      ensures tags == AppendNew(old(tags), incoming)
      ensures queue == old(queue) && unfinished == old(unfinished) && posts == old(posts) && delivered == old(delivered)
      ensures workerAlive == old(workerAlive) && otel == old(otel)
      ensures providerShutdowns == old(providerShutdowns)
    {
      for i := 0 to |incoming|
        invariant tags == AppendNew(old(tags), incoming[..i])
        invariant queue == old(queue) && unfinished == old(unfinished) && posts == old(posts) && delivered == old(delivered)
        invariant workerAlive == old(workerAlive) && otel == old(otel)
        invariant providerShutdowns == old(providerShutdowns)
      {
        var tag := incoming[i];
        AppendNewSnoc(old(tags), incoming[..i], tag);
        assert incoming[..i + 1] == incoming[..i] + [tag];
        if tag !in tags {
          tags := tags + [tag];
        }
      }
      assert incoming[..|incoming|] == incoming;
    }

    /** One turn of `_send_worker`'s loop: take the head of the queue and mark
        it done (once, for the sentinel too); exit on the sentinel, otherwise
        post the body; `net(i)` is the network's answer to the `i`-th post, and a
        failure is only logged, so the loop goes on either way. */
    method WorkerStep(net: nat -> bool)
      requires Consistent() && workerAlive && queue != []
      modifies this
      ensures Consistent() && queue == old(queue)[1..] && unfinished == old(unfinished) - 1
      ensures old(queue)[0].Stop? ==> !workerAlive && posts == old(posts) && delivered == old(delivered)
      ensures old(queue)[0].Item? ==>
        (workerAlive
         && posts == old(posts) + PostsOf(SendSync(enableServerSending, apiKey, old(queue)[0].data))
         && delivered == old(delivered) + (if enableServerSending then [Accepted(old(queue)[0].data.span, net(|old(posts)|))] else []))
      ensures tags == old(tags) && otel == old(otel)
      ensures providerShutdowns == old(providerShutdowns)
    {
      var item := queue[0];
      queue := queue[1..];
      unfinished := unfinished - 1;
      if item.Stop? {
        workerAlive := false;
      } else {
        var body := SendSync(enableServerSending, apiKey, item.data);
        if body.Some? {
          delivered := delivered + [Accepted(body.value.dataDump, net(|posts|))];
          posts := posts + [body.value];
        }
      }
    }

    /** `_send_worker`'s `while True` loop, run until it takes a sentinel: it
        posts the bodies `Drain` describes, whatever each post's outcome, and
        leaves the queue empty. */
    method RunWorker(net: nat -> bool)
      requires Consistent() && workerAlive
      requires Drain(enableServerSending, apiKey, queue).stopped && Drain(enableServerSending, apiKey, queue).rest == []
      modifies this
      ensures Consistent() && !workerAlive && queue == [] && unfinished == 0
      ensures posts == old(posts) + Drain(enableServerSending, apiKey, old(queue)).posts
      ensures delivered[..|old(posts)|] == old(delivered)
      ensures forall i :: |old(posts)| <= i < |posts| ==> delivered[i] == Accepted(posts[i].dataDump, net(i))
      ensures tags == old(tags) && otel == old(otel)
      ensures providerShutdowns == old(providerShutdowns)
    {
      ghost var sending, key := enableServerSending, apiKey;
      ghost var all := Drain(sending, key, queue).posts;
      while workerAlive
        invariant Consistent() && enableServerSending == sending && apiKey == key
        invariant workerAlive ==>
          (queue != [] && Drain(sending, key, queue).stopped && Drain(sending, key, queue).rest == []
           && old(posts) + all == posts + Drain(sending, key, queue).posts)
        invariant !workerAlive ==> queue == [] && posts == old(posts) + all
        invariant |old(posts)| <= |posts|
        invariant delivered[..|old(posts)|] == old(delivered)
        invariant forall i :: |old(posts)| <= i < |posts| ==> delivered[i] == Accepted(posts[i].dataDump, net(i))
        invariant tags == old(tags) && otel == old(otel)
        invariant providerShutdowns == old(providerShutdowns)
        decreases |queue|
      {
        ghost var before, q := posts, queue;
        WorkerStep(net);
        DrainStep(sending, key, before, q, posts, old(posts) + all);
      }
    }

    /** `shutdown`: enqueue the sentinel and wait until the queue is drained; the
        worker then posts everything that was queued and exits. The provider is
        shut down only when OpenTelemetry is on and the provider is owned. A
        second call finds no worker: its sentinel is never taken and `join`
        blocks for ever. */
    method Shutdown(net: nat -> bool) returns (r: ShutdownResult)
      requires Valid()
      modifies this
      ensures old(workerAlive) ==>
        (r == Completed && Valid() && !workerAlive && queue == [] && unfinished == 0
         && posts == old(posts) + Drain(enableServerSending, apiKey, old(queue)).posts
         && delivered[..|old(posts)|] == old(delivered)
         && (forall i :: |old(posts)| <= i < |posts| ==> delivered[i] == Accepted(posts[i].dataDump, net(i)))
         && providerShutdowns == old(providerShutdowns) + (if ShutsDownProvider(otel) then 1 else 0))
      ensures !old(workerAlive) ==>
        (r == JoinBlocked && !workerAlive && queue == old(queue) + [Stop] && unfinished == |queue|
         && posts == old(posts) && delivered == old(delivered) && providerShutdowns == old(providerShutdowns))
      ensures tags == old(tags) && otel == old(otel)
    {
      queue := queue + [Stop];
      unfinished := unfinished + 1;
      if !workerAlive {
        return JoinBlocked;
      }
      DrainStopsAtSentinel(enableServerSending, apiKey, old(queue), []);
      assert old(queue) + [Stop] + [] == queue;
      RunWorker(net);
      if ShutsDownProvider(otel) {
        providerShutdowns := providerShutdowns + 1;
      }
      r := Completed;
    }

    /** `shutdown` as evidently intended: a tracker already shut down returns
        at once instead of enqueueing a sentinel nobody takes. */
    method ShutdownOnce(net: nat -> bool) returns (r: ShutdownResult)
      requires Valid()
      modifies this
      ensures r == Completed && Valid() && !workerAlive && queue == (if old(workerAlive) then [] else old(queue))
      ensures old(workerAlive) ==>
        (posts == old(posts) + Drain(enableServerSending, apiKey, old(queue)).posts
         && delivered[..|old(posts)|] == old(delivered)
         && (forall i :: |old(posts)| <= i < |posts| ==> delivered[i] == Accepted(posts[i].dataDump, net(i)))
         && providerShutdowns == old(providerShutdowns) + (if ShutsDownProvider(otel) then 1 else 0))
      ensures !old(workerAlive) ==>
        posts == old(posts) && delivered == old(delivered) && providerShutdowns == old(providerShutdowns)
      ensures tags == old(tags) && otel == old(otel)
    {
      if !workerAlive {
        return Completed;
      }
      r := Shutdown(net);
    }
  }

  /** Shutting a running tracker down twice: the second call blocks. */
  method ShutdownTwiceBlocks(t: LLMTracker, net: nat -> bool) returns (first: ShutdownResult, second: ShutdownResult)
    requires t.Valid() && t.workerAlive
    modifies t
    ensures first == Completed && second == JoinBlocked
    ensures t.queue == [Stop] && t.unfinished == 1
  {
    first := t.Shutdown(net);
    second := t.Shutdown(net);
  }

  /** With the guarded shutdown the second call returns and changes nothing. */
  method ShutdownOnceTwiceCompletes(t: LLMTracker, net: nat -> bool) returns (first: ShutdownResult, second: ShutdownResult)
    requires t.Valid() && t.workerAlive
    modifies t
    ensures first == Completed && second == Completed
    ensures t.queue == [] && t.unfinished == 0 && t.Valid()
    ensures t.posts == old(t.posts) + Drain(t.enableServerSending, t.apiKey, old(t.queue)).posts
    ensures t.providerShutdowns <= old(t.providerShutdowns) + 1
  {
    first := t.ShutdownOnce(net);
    second := t.ShutdownOnce(net);
  }

  /** A tracker attached to a host's provider never shuts that provider down,
      whatever was queued. */
  method AttachedProviderSurvives(apiKey: Option<string>, env: SetupEnv, spans: seq<CallData>, net: nat -> bool)
    returns (shutdowns: nat)
    requires env.existingProvider
    ensures shutdowns == 0
  {
    var t := new LLMTracker(apiKey, None, None, None, None, true, true, false, false, "s", "t", env);
    for i := 0 to |spans|
      invariant t.Valid() && t.workerAlive && t.providerShutdowns == 0 && t.otel == SetupOtel(env)
    {
      t.EnqueueSpan(spans[i]);
    }
    var _ := t.Shutdown(net);
    shutdowns := t.providerShutdowns;
  }

  /** With N items queued, `shutdown` posts exactly N bodies, in enqueue order,
      each with its item's data, whichever of the posts fail. */
  method ShutdownPostsQueued(apiKey: Option<string>, env: SetupEnv, spans: seq<CallData>, net: nat -> bool)
    returns (posted: seq<Payload>, accepted: seq<bool>)
    ensures posted == Deliveries(spans, apiKey)
    ensures |accepted| == |posted| && forall i :: 0 <= i < |accepted| ==> accepted[i] == Accepted(posted[i].dataDump, net(i))
  {
    var t := new LLMTracker(apiKey, None, None, None, None, true, false, false, false, "s", "t", env);
    for i := 0 to |spans|
      invariant t.Valid() && t.workerAlive && t.posts == [] && t.delivered == [] && t.enableServerSending && t.apiKey == apiKey
      invariant t.queue == Items(spans[..i])
    {
      assert spans[..i + 1] == spans[..i] + [spans[i]];
      ItemsSnoc(spans[..i], spans[i]);
      t.EnqueueSpan(spans[i]);
    }
    assert spans[..|spans|] == spans;
    var _ := t.Shutdown(net);
    DrainPostsInOrder(true, apiKey, spans);
    posted, accepted := t.posts, t.delivered;
  }
}
