/** The request, and which collection tools it may use: fixed helpers per platform and signed artifacts. */
module Catalog {
  import opened Common

  datatype Platform = Windows | Linux | MacOS

  const MINUTE: int := 60_000_000
  const HOUR: int := 60 * MINUTE
  const DAY: int := 24 * HOUR

  datatype TimeRange = TimeRange(from: Instant, to: Instant)

  datatype ArtifactRef = ArtifactRef(name: string, tier: int, platforms: set<Platform>)

  datatype Request = Request(
    investigationId: string,
    clientId: string,
    platform: Platform,
    range: TimeRange,
    orgId: string,
    artifacts: seq<ArtifactRef>)

  const CUSTOM_PREFIX := "custom:"
  const EVENT_LOGS := "windows_event_logs"
  const EVENT_LOGS_DETAIL := "windows_event_logs_detail"
  const EVENT_LOGS_TRIAGE := "windows_event_logs_triage"
  const COLLECT_CUSTOM := "collect_custom_artifact"

  /**
   * WINDOWS_TOOL_POLICIES and TOOL_CAPABILITIES have the same keys, all paginated; the flag says who takes a
   * time range.
   */
  const WINDOWS_TOOLS: map<string, bool> := map[
    "windows_pslist" := false,
    "windows_netstat_enriched" := false,
    "windows_services" := false,
    "windows_scheduled_tasks" := false,
    "windows_autoruns" := false,
    "windows_wmi_persistence" := false,
    "windows_event_logs" := true,
    "windows_event_log_cleared" := true,
    "windows_powershell_scriptblock" := true,
    "windows_execution_prefetch" := true,
    "windows_execution_amcache" := false,
    "windows_execution_userassist" := true,
    "windows_execution_shimcache" := false,
    "windows_logon_events" := true,
    "windows_dns_cache" := false]

  const BASELINE_TOOLS: seq<string> := [
    "windows_pslist",
    "windows_netstat_enriched",
    "windows_services",
    "windows_scheduled_tasks",
    "windows_event_logs",
    "windows_powershell_scriptblock"]

  function StaticTools(platform: Platform): set<string> {
    if platform == Windows then WINDOWS_TOOLS.Keys else {}
  }

  function Prefixed(name: string): string {
    CUSTOM_PREFIX + name
  }

  function Tier1Table(platform: Platform): set<string> {
    match platform
    case Windows => {Prefixed("Custom.DFIR.Windows.Triage")}
    case Linux => {Prefixed("Custom.DFIR.Linux.Triage")}
    case MacOS => {}
  }

  function Tier2Table(platform: Platform): set<string> {
    match platform
    case Windows => {Prefixed("Custom.DFIR.Windows.Execution"), Prefixed("Custom.DFIR.Windows.Persistence")}
    case Linux => {Prefixed("Custom.DFIR.Linux.Persistence"), Prefixed("Custom.DFIR.Linux.SSH")}
    case MacOS => {}
  }

  function ToolName(ref: ArtifactRef): string {
    Prefixed(ref.name)
  }

  /** Names the request signs. */
  function CustomNames(req: Request): set<string> {
    set ref | ref in req.artifacts :: ToolName(ref)
  }

  predicate HasTier(req: Request, tier: int) {
    exists ref :: ref in req.artifacts && ref.tier == tier
  }

  function InitialNames(req: Request): set<string> {
    if !HasTier(req, 1) then Tier1Table(req.platform)
    else set ref | ref in req.artifacts && ref.tier == 1 && ToolName(ref) in Tier1Table(req.platform)
                   && req.platform in ref.platforms :: ToolName(ref)
  }

  function Tier2Names(req: Request): set<string> {
    if !HasTier(req, 2) then Tier2Table(req.platform)
    else set ref | ref in req.artifacts && ref.tier == 2 && req.platform in ref.platforms :: ToolName(ref)
  }

  /** Artifacts a run can really collect: offered to the planner and signed by the request. */
  function Collectable(req: Request): set<string> {
    (InitialNames(req) + Tier2Names(req)) * CustomNames(req)
  }

  /** The request says this artifact supports the target's platform. */
  ghost predicate Declared(req: Request, tool: string) {
    exists ref :: ref in req.artifacts && ToolName(ref) == tool && req.platform in ref.platforms
  }

  /** The hard-coded names used for a tier that the request never mentions. */
  function FallbackNames(req: Request): set<string> {
    (if HasTier(req, 1) then {} else Tier1Table(req.platform)) +
    (if HasTier(req, 2) then {} else Tier2Table(req.platform))
  }

  lemma PrefixedInjective(a: string, b: string)
    ensures Prefixed(a) == Prefixed(b) <==> a == b
  {
    assert Prefixed(a)[|CUSTOM_PREFIX|..] == a && Prefixed(b)[|CUSTOM_PREFIX|..] == b;
  }

  /** The request signs the artifact for this tier and declares the target's platform. */
  ghost predicate SignedFor(req: Request, name: string, tier: int) {
    exists ref :: ref in req.artifacts && ref.name == name && ref.tier == tier && req.platform in ref.platforms
  }

  ghost predicate NoneOfTier(req: Request, tier: int) {
    forall ref :: ref in req.artifacts ==> ref.tier != tier
  }

  /** Offered first: the platform's triage artifact, signed for tier 1 unless the request signs nothing for it. */
  lemma OfferedFirstExactlyWhen(req: Request, name: string)
    ensures "custom:" + name in InitialNames(req) <==>
            && ((req.platform == Windows && name == "Custom.DFIR.Windows.Triage") ||
                (req.platform == Linux && name == "Custom.DFIR.Linux.Triage"))
            && (NoneOfTier(req, 1) || SignedFor(req, name, 1))
  {
    PrefixedInjective(name, "Custom.DFIR.Windows.Triage");
    PrefixedInjective(name, "Custom.DFIR.Linux.Triage");
    forall ref | ref in req.artifacts ensures ToolName(ref) == Prefixed(name) <==> ref.name == name {
      PrefixedInjective(ref.name, name);
    }
  }

  /** Offered at tier 2: what the request signs for it or, if it signs nothing, the platform's two artifacts. */
  lemma OfferedAtTier2ExactlyWhen(req: Request, name: string)
    ensures "custom:" + name in Tier2Names(req) <==>
            if NoneOfTier(req, 2) then
              || (req.platform == Windows &&
                  name in {"Custom.DFIR.Windows.Execution", "Custom.DFIR.Windows.Persistence"})
              || (req.platform == Linux && name in {"Custom.DFIR.Linux.Persistence", "Custom.DFIR.Linux.SSH"})
            else SignedFor(req, name, 2)
  {
    PrefixedInjective(name, "Custom.DFIR.Windows.Execution");
    PrefixedInjective(name, "Custom.DFIR.Windows.Persistence");
    PrefixedInjective(name, "Custom.DFIR.Linux.Persistence");
    PrefixedInjective(name, "Custom.DFIR.Linux.SSH");
    forall ref | ref in req.artifacts ensures ToolName(ref) == Prefixed(name) <==> ref.name == name {
      PrefixedInjective(ref.name, name);
    }
  }

  /** Every collectable artifact is in the platform's tables or declared tier 2 for the platform. */
  lemma CollectableIsVetted(req: Request, tool: string)
    requires tool in Collectable(req)
    ensures tool in Tier1Table(req.platform) + Tier2Table(req.platform) ||
            exists ref :: ref in req.artifacts && ToolName(ref) == tool && ref.tier == 2 &&
                req.platform in ref.platforms
    ensures tool in CustomNames(req) && CUSTOM_PREFIX <= tool
  {
    var ref :| ref in req.artifacts && ToolName(ref) == tool;
    assert ToolName(ref)[..|CUSTOM_PREFIX|] == CUSTOM_PREFIX;
  }

  /**
   * Artifacts are kept to platforms they declare exactly when none signed under a fallback name
   * fails to declare the target's platform: the fallback never looks at the declaration.
   */
  lemma PlatformDeclarationRespectedExactlyWhen(req: Request)
    ensures (forall tool :: tool in Collectable(req) ==> Declared(req, tool)) <==>
            (forall ref :: ref in req.artifacts && ToolName(ref) in FallbackNames(req) ==> Declared(req, ToolName(ref)))
  {
    forall tool | tool in Collectable(req) && tool !in FallbackNames(req) ensures Declared(req, tool) {
    }
    forall ref | ref in req.artifacts && ToolName(ref) in FallbackNames(req)
      ensures ToolName(ref) in Collectable(req)
    {
    }
  }

  /** The triage artifact declared for Linux only, at tier 2, is still collected on Windows. */
  lemma FallbackIgnoresDeclaration(req: Request)
    requires req.platform == Windows
    requires req.artifacts == [ArtifactRef("Custom.DFIR.Windows.Triage", 2, {Linux})]
    ensures var tool := Prefixed("Custom.DFIR.Windows.Triage");
            tool in InitialNames(req) && tool in Collectable(req) && !Declared(req, tool)
  {
    var ref := ArtifactRef("Custom.DFIR.Windows.Triage", 2, {Linux});
    assert forall other :: other in req.artifacts ==> other == ref;
    assert ref in req.artifacts && ToolName(ref) in CustomNames(req);
  }

  // ----- request validation -----

  datatype RangeCheck = InRange(range: TimeRange) | OutOfRange(reason: string)

  /** TimeRange.validate_range; `.days` of a duration is its whole days, rounded down. */
  method ValidateRange(from: Stamp, to: Stamp) returns (r: RangeCheck)
    ensures r.InRange? <==> from.Aware? && to.Aware? && 0 < to.Utc() - from.Utc() < 32 * DAY
    ensures r.InRange? ==> r.range == TimeRange(from.Utc(), to.Utc())
  {
    if from.Naive? || to.Naive? {
      return OutOfRange("no timezone");
    }
    var start, end := from.Utc(), to.Utc();
    if start >= end {
      return OutOfRange("from is not before to");
    }
    if (end - start) / DAY > 31 {
      return OutOfRange("longer than 31 days");
    }
    return InRange(TimeRange(start, end));
  }

  lemma WindowsToolsAreNotCustom(tool: string)
    requires tool in WINDOWS_TOOLS
    ensures !(CUSTOM_PREFIX <= tool) && tool != EVENT_LOGS_DETAIL
  {
    assert tool[0] == 'w';
  }
}
