/** The package entry points (neatlogs/__init__.py): `init` creates the one
    tracker, `add_tags` and the exit hook reach it through `get_tracker`.
    The package and `new_core` each declare their own `_global_tracker`; `init`
    writes the package's, `get_tracker` reads `new_core`'s. */
module Package {
  import opened PyValues
  import opened TrackerSetup
  import opened Tags
  import opened Tracker

  /** `add_tags`: done, or the `RuntimeError` for an uninitialised tracker. */
  datatype TagsResult = TagsAdded | NotInitialized

  /** A tracker that `init` configures: no ids given, server sending on. */
  ghost predicate InitConfigured(t: LLMTracker, apiKey: string, tags: Option<seq<string>>, enableOtel: bool,
                           consoleExport: bool, dryRun: bool, freshSession: string, freshThread: string, env: SetupEnv)
    reads t
  {
    t.Valid() && t.sessionId == freshSession && t.agentId == DefaultAgentId && t.threadId == freshThread
    && t.tags == TagsOr(tags) && t.apiKey == Some(apiKey) && t.dryRun == dryRun
    && t.enableServerSending == !dryRun
    && t.otel == InitialOtel(DeriveFlags(dryRun, true, enableOtel, consoleExport).otel, env)
    && t.queue == [] && t.workerAlive && t.posts == []
  }

  /** The two module-level slots. */
  class PackageState {
    /** `neatlogs._global_tracker` (neatlogs/__init__.py:20). */
    var packageSlot: LLMTracker?
    /** `neatlogs.new_core._global_tracker` (neatlogs/new_core.py:399). */
    var coreSlot: LLMTracker?

    constructor ()
      ensures packageSlot == null && coreSlot == null
    {
      packageSlot := null;
      coreSlot := null;
    }

    /** `init`: the first call creates the tracker in the package slot; later
        calls return it and ignore their arguments. `new_core`'s slot is never
        touched. */
    method Init(apiKey: string, tags: Option<seq<string>>, enableOtel: bool, consoleExport: bool, dryRun: bool,
                freshSession: string, freshThread: string, env: SetupEnv) returns (t: LLMTracker)
      modifies this
      ensures old(packageSlot) != null ==> t == old(packageSlot)
      ensures old(packageSlot) == null ==>
        fresh(t) && InitConfigured(t, apiKey, tags, enableOtel, consoleExport, dryRun, freshSession, freshThread, env)
      ensures packageSlot == t && coreSlot == old(coreSlot)
    {
      if packageSlot == null {
        assert TextOr(None, freshSession) == freshSession && TextOr(None, freshThread) == freshThread;
        assert TextOr(None, DefaultAgentId) == DefaultAgentId;
        packageSlot := new LLMTracker(Some(apiKey), None, None, None, tags, true, enableOtel, consoleExport, dryRun,
                                      freshSession, freshThread, env);
      }
      t := packageSlot;
    }

    /** `get_tracker`: whatever `new_core`'s slot holds. */
    method GetTracker() returns (t: LLMTracker?)
      ensures t == coreSlot
    {
      t := coreSlot;
    }

    /** `add_tags`: raise when `get_tracker` finds no tracker, else add the
        tags to it. */
    method AddTags(incoming: seq<string>) returns (r: TagsResult)
      modifies coreSlot
      ensures (r == NotInitialized) <==> coreSlot == null
      ensures coreSlot != null ==> coreSlot.tags == AppendNew(old(coreSlot.tags), incoming)
      ensures coreSlot != null ==>
        coreSlot.queue == old(coreSlot.queue) && coreSlot.posts == old(coreSlot.posts)
        && coreSlot.unfinished == old(coreSlot.unfinished) && coreSlot.delivered == old(coreSlot.delivered)
        && coreSlot.workerAlive == old(coreSlot.workerAlive) && coreSlot.otel == old(coreSlot.otel)
        && coreSlot.providerShutdowns == old(coreSlot.providerShutdowns)
        && (old(coreSlot.Valid()) ==> coreSlot.Valid())
    {
      var t := GetTracker();
      if t == null {
        return NotInitialized;
      }
      t.AddTags(incoming);
      r := TagsAdded;
    }

    /** `_shutdown_neatlogs`, the exit hook: shut down the tracker
        `get_tracker` finds, if any. */
    method ShutdownHook(net: nat -> bool) returns (r: Option<ShutdownResult>)
      requires coreSlot != null ==> coreSlot.Valid()
      modifies coreSlot
      ensures (r == None) <==> coreSlot == null
      ensures coreSlot != null && old(coreSlot.workerAlive) ==>
        (r == Some(Completed) && !coreSlot.workerAlive && coreSlot.queue == []
         && coreSlot.posts == old(coreSlot.posts) + Drain(coreSlot.enableServerSending, coreSlot.apiKey, old(coreSlot.queue)).posts
         && coreSlot.providerShutdowns == old(coreSlot.providerShutdowns) + (if ShutsDownProvider(coreSlot.otel) then 1 else 0))
      ensures coreSlot != null && !old(coreSlot.workerAlive) ==>
        (r == Some(JoinBlocked) && coreSlot.queue == old(coreSlot.queue) + [Stop]
         && coreSlot.posts == old(coreSlot.posts) && coreSlot.providerShutdowns == old(coreSlot.providerShutdowns))
    {
      var t := GetTracker();
      if t == null {
        return None;
      }
      var done := t.Shutdown(net);
      r := Some(done);
    }

    /** `init` with one shared slot (the package re-exporting `new_core`'s):
        the tracker it creates is the one `get_tracker` returns. */
    method InitShared(apiKey: string, tags: Option<seq<string>>, enableOtel: bool, consoleExport: bool, dryRun: bool,
                      freshSession: string, freshThread: string, env: SetupEnv) returns (t: LLMTracker)
      modifies this
      ensures old(coreSlot) != null ==> t == old(coreSlot)
      ensures old(coreSlot) == null ==>
        fresh(t) && InitConfigured(t, apiKey, tags, enableOtel, consoleExport, dryRun, freshSession, freshThread, env)
      ensures coreSlot == t && packageSlot == t
    {
      if coreSlot == null {
        assert TextOr(None, freshSession) == freshSession && TextOr(None, freshThread) == freshThread;
        assert TextOr(None, DefaultAgentId) == DefaultAgentId;
        coreSlot := new LLMTracker(Some(apiKey), None, None, None, tags, true, enableOtel, consoleExport, dryRun,
                                   freshSession, freshThread, env);
      }
      t := coreSlot;
      packageSlot := t;
    }
  }

  /** As written: right after `init`, `add_tags` raises and the exit hook does
      nothing, so the spans queued by the tracker `init` returned are never
      flushed at exit. */
  method InitThenAddTagsFails(apiKey: string, more: seq<string>, freshSession: string, freshThread: string,
                              env: SetupEnv, net: nat -> bool)
    returns (added: TagsResult, hook: Option<ShutdownResult>, workerStillAlive: bool)
    ensures added == NotInitialized && hook == None && workerStillAlive
  {
    var package := new PackageState();
    var t := package.Init(apiKey, None, false, false, false, freshSession, freshThread, env);
    added := package.AddTags(more);
    hook := package.ShutdownHook(net);
    workerStillAlive := t.workerAlive;
  }

  /** With the shared slot the same calls add the tags to the tracker `init`
      returned and the exit hook shuts it down. */
  method InitSharedThenAddTags(apiKey: string, tags: seq<string>, more: seq<string>, freshSession: string,
                               freshThread: string, env: SetupEnv, net: nat -> bool)
    returns (added: TagsResult, finalTags: seq<string>, hook: Option<ShutdownResult>, workerStillAlive: bool)
    ensures added == TagsAdded && finalTags == AppendNew(tags, more)
    ensures hook == Some(Completed) && !workerStillAlive
  {
    var package := new PackageState();
    var t := package.InitShared(apiKey, Some(tags), false, false, false, freshSession, freshThread, env);
    added := package.AddTags(more);
    finalTags := t.tags;
    hook := package.ShutdownHook(net);
    workerStillAlive := t.workerAlive;
  }
}
