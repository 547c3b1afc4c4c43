/** The context variables each core module declares (neatlogs/core.py:21-83,
    neatlogs/new_core.py:23-82): the current agentic framework, the
    patching-suppression flag and the active LangGraph node span. The two
    modules declare the same code but separate `ContextVar` objects; one
    `TaskContext` stands for one module's slots as one async task sees them. */
module ContextSlots {
  import opened PyValues

  /** An OpenTelemetry span object, by identity. */
  type SpanRef = nat

  /** The three slots of the current task's context. */
  class TaskContext {
    var framework: Option<string>
    var suppressed: bool
    var nodeSpan: Option<SpanRef>

    /** Every slot starts at its `ContextVar` default. */
    constructor ()
      ensures framework == None && !suppressed && nodeSpan == None
    {
      framework := None;
      suppressed := false;
      nodeSpan := None;
    }

    /** `set_current_framework`. */
    method SetCurrentFramework(f: string)
      modifies this
      ensures framework == Some(f) && suppressed == old(suppressed) && nodeSpan == old(nodeSpan)
    {
      framework := Some(f);
    }

    /** `get_current_framework`. */
    method GetCurrentFramework() returns (r: Option<string>)
      ensures r == framework
    {
      r := framework;
    }

    /** `clear_current_framework`. */
    method ClearCurrentFramework()
      modifies this
      ensures framework == None && suppressed == old(suppressed) && nodeSpan == old(nodeSpan)
    {
      framework := None;
    }

    /** `suppress_patching`. */
    method SuppressPatching()
      modifies this
      ensures suppressed && framework == old(framework) && nodeSpan == old(nodeSpan)
    {
      suppressed := true;
    }

    /** `release_patching`. */
    method ReleasePatching()
      modifies this
      ensures !suppressed && framework == old(framework) && nodeSpan == old(nodeSpan)
    {
      suppressed := false;
    }

    /** `is_patching_suppressed`. */
    method IsPatchingSuppressed() returns (r: bool)
      ensures r == suppressed
    {
      r := suppressed;
    }

    /** `set_active_langgraph_node_span`. */
    method SetActiveNodeSpan(s: SpanRef)
      modifies this
      ensures nodeSpan == Some(s) && framework == old(framework) && suppressed == old(suppressed)
    {
      nodeSpan := Some(s);
    }

    /** `get_active_langgraph_node_span`. */
    method GetActiveNodeSpan() returns (r: Option<SpanRef>)
      ensures r == nodeSpan
    {
      r := nodeSpan;
    }

    /** `clear_active_langgraph_node_span`. */
    method ClearActiveNodeSpan()
      modifies this
      ensures nodeSpan == None && framework == old(framework) && suppressed == old(suppressed)
    {
      nodeSpan := None;
    }
  }

  /** What the three getters return. */
  datatype Reading = Reading(framework: Option<string>, suppressed: bool, nodeSpan: Option<SpanRef>)

  method Read(c: TaskContext) returns (r: Reading)
    ensures r == Reading(c.framework, c.suppressed, c.nodeSpan)
  {
    var f := c.GetCurrentFramework();
    var p := c.IsPatchingSuppressed();
    var s := c.GetActiveNodeSpan();
    r := Reading(f, p, s);
  }

  /** In a fresh task every slot reads its default; each setter is read back by
      its own getter without touching the other slots; clearing (or releasing)
      restores the default. */
  method SlotsRoundTrip(f: string, s: SpanRef)
    returns (initial: Reading, afterFramework: Reading, afterAll: Reading, afterClear: Reading)
    ensures initial == Reading(None, false, None)
    ensures afterFramework == Reading(Some(f), false, None)
    ensures afterAll == Reading(Some(f), true, Some(s))
    ensures afterClear == Reading(None, false, None)
  {
    var c := new TaskContext();
    initial := Read(c);
    c.SetCurrentFramework(f);
    afterFramework := Read(c);
    c.SuppressPatching();
    c.SetActiveNodeSpan(s);
    afterAll := Read(c);
    c.ClearCurrentFramework();
    c.ReleasePatching();
    c.ClearActiveNodeSpan();
    afterClear := Read(c);
  }
}
