/** What both trackers do when they are constructed: default the ids and tags,
    apply the dry-run overrides and set up OpenTelemetry
    (neatlogs/new_core.py:114-276, neatlogs/core.py:133-308). */
module TrackerSetup {
  import opened PyValues

  /** `x or default` for an optional string argument. */
  function TextOr(a: Option<string>, default: string): (r: string)
    ensures TruthyText(a) ==> r == a.value
    ensures !TruthyText(a) ==> r == default
  {
    if TruthyText(a) then a.value else default
  }

  /** `tags or []`: an absent or empty list becomes the empty list. */
  function TagsOr(tags: Option<seq<string>>): (r: seq<string>)
    ensures tags.Some? ==> r == tags.value
    ensures tags.None? ==> r == []
  {
    match tags
    case Some(t) => t
    case None => []
  }

  const DefaultAgentId: string := "default-agent"

  /** The switches a tracker ends up with. */
  datatype Flags = Flags(sending: bool, otel: bool, consoleExport: bool)

  /** The dry-run overrides: dry run turns server sending off and forces both
      OpenTelemetry and console export on; otherwise the arguments stand. */
  function DeriveFlags(dryRun: bool, enableServerSending: bool, enableOtel: bool, consoleExport: bool): (f: Flags)
    ensures dryRun ==> !f.sending && f.otel && f.consoleExport
    ensures !dryRun ==> f.sending == enableServerSending && f.otel == enableOtel && f.consoleExport == consoleExport
  {
    if dryRun then Flags(false, true, true) else Flags(enableServerSending, enableOtel, consoleExport)
  }

  /** Where `_setup_otel` raises, if it does: on an import, before the provider
      is stored, after it is stored but before the span processor is added, or
      after that (while adding exporters or getting the tracer). */
  datatype SetupFailure = NoFailure | ImportFails | FailsBeforeProvider | FailsBeforeProcessor | FailsAfterProcessor

  /** The OpenTelemetry runtime `_setup_otel` meets: whether a global provider is
      already configured (anything but the proxy provider), whether that provider
      has `add_span_processor`, and where setup fails. */
  datatype SetupEnv = SetupEnv(existingProvider: bool, supportsProcessors: bool, failure: SetupFailure)

  /** The OpenTelemetry part of a tracker: `enable_otel`, whether `_tracer_provider`
      is set, `_owns_tracer_provider` (absent until assigned) and whether the
      Neatlogs span processor was added to the provider. */
  datatype OtelSetup = OtelSetup(enabled: bool, providerPresent: bool, owns: Option<bool>, processorAttached: bool)

  const NoOtel: OtelSetup := OtelSetup(false, false, None, false)

  /** `_setup_otel`: an existing provider is attached to and not owned, otherwise
      a new one is created and owned; any exception turns OpenTelemetry off and
      keeps whatever was already stored. */
  function SetupOtel(env: SetupEnv): OtelSetup {
    var owns := Some(!env.existingProvider);
    match env.failure
    case ImportFails => NoOtel
    case FailsBeforeProvider => NoOtel
    case FailsBeforeProcessor => OtelSetup(false, true, owns, false)
    case FailsAfterProcessor => OtelSetup(false, true, owns, env.supportsProcessors)
    case NoFailure => OtelSetup(true, true, owns, env.supportsProcessors)
  }

  /** The OpenTelemetry state after construction: set up only when enabled. */
  function InitialOtel(otel: bool, env: SetupEnv): OtelSetup {
    if otel then SetupOtel(env) else NoOtel
  }

  /** The condition under which the current tracker's `shutdown` shuts the
      provider down (neatlogs/new_core.py:386). */
  predicate ShutsDownProvider(o: OtelSetup) {
    o.enabled && o.providerPresent && o.owns == Some(true)
  }

  /** The condition of the legacy tracker (neatlogs/core.py:428). */
  predicate LegacyShutsDownProvider(o: OtelSetup) {
    o.enabled && o.providerPresent
  }

  /** OpenTelemetry stays enabled exactly when setup ran to the end; then the
      provider is stored, owned exactly when it was created here, and carries
      the span processor exactly when it supports processors. */
  lemma SetupOtelOutcome(env: SetupEnv)
    ensures var o := SetupOtel(env);
      (o.enabled <==> env.failure == NoFailure)
      && (o.enabled ==> o.providerPresent && o.owns == Some(!env.existingProvider)
                        && (o.processorAttached <==> env.supportsProcessors))
      && (o.owns.Some? ==> o.owns == Some(!env.existingProvider))
      && (o.processorAttached ==> o.providerPresent && env.supportsProcessors)
  {
  }

  /** The current tracker shuts down only a provider it created itself, and then
      only when setup succeeded; an attached host provider is never shut down. */
  lemma OnlyOwnedProviderShutDown(otel: bool, env: SetupEnv)
    ensures ShutsDownProvider(InitialOtel(otel, env)) <==>
      otel && env.failure == NoFailure && !env.existingProvider
  {
  }

  /** The legacy tracker shuts down the provider whenever setup succeeded, a
      host's provider included. */
  lemma LegacyShutsDownHostProvider(otel: bool, env: SetupEnv)
    ensures LegacyShutsDownProvider(InitialOtel(otel, env)) <==> otel && env.failure == NoFailure
  {
  }

  /** A failure after the span processor was added leaves the processor on the
      provider while OpenTelemetry counts as disabled. */
  lemma ProcessorOutlivesFailedSetup(existing: bool)
    ensures var o := SetupOtel(SetupEnv(existing, true, FailsAfterProcessor));
      !o.enabled && o.processorAttached
  {
  }
}
