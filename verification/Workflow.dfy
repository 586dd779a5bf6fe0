/**
 * The investigation graph as a state machine: verify, plan, collect*, plan tier 2, collect*, assess, render.
 * The models, the bridge and the clock are arbitrary; what they answer at each visit is a `Turn`.
 */
module Workflow {
  import opened Common
  import Numerals
  import opened Catalog
  import opened Json
  import opened EvidenceBudget
  import opened Planning
  import opened Expansions
  import opened Bridge

  datatype Node = VerifyTarget | MakePlan | Collect | PlanTier2 | Assess | RenderReport

  /** The node to visit next, or how the run ended. */
  datatype Phase = At(node: Node) | Finished | Failed(why: string)

  datatype Tier2Reply = NoTier2Planner | Tier2Raised | NoProposal | Proposed(proposals: seq<Proposal>)
  datatype ExpansionReply = NoExpansionPlanner | ExpansionRaised | Expanded(raws: seq<Raw>)

  /** Everything the outside contributes to one node visit. */
  datatype Turn = Turn(
    clock: nat -> string,
    wire: nat -> Wire,
    plan: Option<seq<string>>,
    tier2: Tier2Reply,
    expansions: ExpansionReply,
    assessment: Option<Assessment>)

  datatype Report = Report(evidence: seq<Item>, assessment: Assessment)

  /** The graph's state with the adapter's session; `initial` and `visits` only record the run. */
  datatype State = State(
    phase: Phase,
    plan: seq<string>,
    index: nat,
    evidence: seq<Item>,
    tier2Planned: bool,
    limitations: seq<string>,
    assessment: Option<Assessment>,
    report: Option<Report>,
    session: Session,
    initial: nat,
    visits: seq<Node>)

  const START := State(At(VerifyTarget), [], 0, [], false, [], None, None, Session(None, []), 0, [])

  function EvidenceId(n: nat): string {
    "E-" + DecimalPadded(n, 3)
  }

  lemma EvidenceIdInjective(a: nat, b: nat)
    requires EvidenceId(a) == EvidenceId(b)
    ensures a == b
  {
    assert EvidenceId(a)[2..] == DecimalPadded(a, 3) && EvidenceId(b)[2..] == DecimalPadded(b, 3);
    DecimalPaddedInjective(a, b, 3);
  }

  /** An evidence id: three digits at least, more only for numbers that need them, reading back as the number. */
  lemma EvidenceIdIs(n: nat)
    ensures var id := EvidenceId(n);
            && |id| >= 5 && id[..2] == "E-" && AllDigits(id[2..])
            && Numerals.Value(DigitValues(id[2..]), 10) == n && (|id| > 5 ==> id[2] != '0')
  {
    hide Numerals.Value, Numerals.Digits;
    var t, ds := DecimalPadded(n, 3), Numerals.Padded(n, 10, 3);
    assert EvidenceId(n)[2..] == t && EvidenceId(n)[..2] == "E-";
    assert DigitValues(t) == ds;
    Numerals.PaddedReadsBack(n, 10, 3);
    if n > 0 {
      Numerals.NoLeadingZero(n, 10);
    } else {
      Numerals.DigitCount(0, 10, 0);
    }
  }

  function InitialLimit(cfg: Settings): nat {
    if cfg.maxSteps < INITIAL_TRIAGE_MAX_STEPS then cfg.maxSteps else INITIAL_TRIAGE_MAX_STEPS
  }

  // ----- evidence items -----

  function FailedItem(id: string, tool: string, at: string, fault: Fault): Item {
    match fault
    case Deadline => Item(id, tool, at, false, Null, Null, Str("MCP collection timed out."), true)
    case Fault(kind) => Item(id, tool, at, false, Null, Null, Str("MCP collection failed: " + kind + "."), false)
  }

  function CollectedItem(id: string, tool: string, at: string, r: Outcome<Envelope>): Item {
    match r
    case Threw(fault) => FailedItem(id, tool, at, fault)
    case Returned(envelope) =>
      if !envelope.ok then Item(id, tool, at, false, Null, Null, Str("MCP tool returned a failed envelope."), false)
      else if envelope.pagination.Null? || envelope.pagination.Obj? then
        Item(id, tool, at, true, envelope.data, envelope.pagination, Null, false)
      else FailedItem(id, tool, at, Fault("ValidationError"))
  }

  function EventLogItem(id: string, tool: string, at: string, r: Outcome<Json>): Item {
    match r
    case Threw(fault) => FailedItem(id, tool, at, fault)
    case Returned(data) => Item(id, tool, at, true, data, Null, Null, false)
  }

  /** The event ids a triage result reports: what details may ask for. */
  function SampledIds(triage: Json): set<string> {
    var eids := Get(triage, "event_ids", Null);
    if eids.Arr? then set eid | eid in eids.items && Truthy(eid) :: PyStr(eid) else {}
  }

  // ----- the nodes, as functions of the state -----

  /** A state a run can be in, as far as the next node needs. */
  predicate Ready(s: State) {
    && (s.phase == At(VerifyTarget) || s.phase == At(MakePlan) ==> s.index == 0)
    && (s.phase == At(Collect) ==> s.index < |s.plan|)
    && (s.phase == At(RenderReport) ==> s.assessment.Some?)
  }

  function Visit(s: State, node: Node, next: Phase): State {
    s.(phase := next, visits := s.visits + [node])
  }

  function AfterVerify(req: Request, cfg: Settings, s: State, t: Turn): (s': State)
    requires s.index == 0
    ensures Ready(s')
  {
    var (session, r) := Verified(s.session, cfg, req.clientId, OrElse(req.orgId, cfg.orgId), t.wire(0));
    var s1 := s.(session := session);
    if r.Threw? then Visit(s1, VerifyTarget, Failed("target verification"))
    else Visit(s1.(evidence := [], index := 0, tier2Planned := false), VerifyTarget, At(MakePlan))
  }

  ghost function AfterPlan(req: Request, cfg: Settings, s: State, t: Turn): (s': State)
    requires s.index == 0
    ensures Ready(s')
  {
    if t.plan.None? then Visit(s, MakePlan, Failed("planning"))
    else
      var steps := Sanitized(t.plan.value, InitialLimit(cfg), InitialNames(req), req.platform);
      if steps == [] then Visit(s, MakePlan, Failed("empty plan"))
      else Visit(s.(plan := steps, initial := |steps|), MakePlan, At(Collect))
  }

  /** after_collect and after_tier2_plan. */
  function Route(s: State): Phase {
    if s.index < |s.plan| then At(Collect)
    else if s.tier2Planned then At(Assess)
    else At(PlanTier2)
  }

  function AfterTier2(req: Request, cfg: Settings, s: State, t: Turn): (s': State)
    ensures Ready(s')
  {
    match Fit(s.evidence, cfg.maxEvidenceChars)
    case Err(e) => Visit(s, PlanTier2, Failed(e))
    case Ok(shown) =>
      var planned := s.(tier2Planned := true);
      var s1 :=
        if Tier2Names(req) == {} then planned
        else match t.tier2
          case Tier2Raised => planned.(limitations := s.limitations + ["tier2_planning_failed"])
          case Proposed(proposals) => planned.(plan := s.plan + SelectedTier2(proposals, Tier2Names(req), shown))
          case _ => planned;
      Visit(s1, PlanTier2, Route(s1))
  }

  function AfterOneTool(req: Request, cfg: Settings, s: State, t: Turn): State
    requires s.index < |s.plan|
  {
    var tool := s.plan[s.index];
    var (session, r) := Collected(s.session, cfg, tool, req.clientId, OrElse(req.orgId, cfg.orgId), req.range,
                                  50, 0, CustomNames(req), t.wire(0));
    s.(session := session, evidence := s.evidence + [CollectedItem(EvidenceId(s.index + 1), tool, t.clock(0), r)])
  }

  /** Running the accepted expansions one by one: the session and the detail items. */
  function Details(req: Request, cfg: Settings, session: Session, index: nat, es: seq<Expansion>, t: Turn)
    : (Session, seq<Item>)
  {
    if es == [] then (session, [])
    else
      var n := |es|;
      var (before, items) := Details(req, cfg, session, index, es[..n - 1], t);
      var (after, r) := Detailed(before, cfg, req.clientId, OrElse(req.orgId, cfg.orgId), es[n - 1], t.wire(n));
      (after, items + [EventLogItem(EvidenceId(index + 1 + n), EVENT_LOGS_DETAIL, t.clock(n), r)])
  }

  function RequestedExpansions(sampled: set<string>, t: Turn): seq<Raw> {
    if sampled != {} && t.expansions.Expanded? then t.expansions.raws else []
  }

  function AfterEventLogs(req: Request, cfg: Settings, s: State, t: Turn): State {
    var (session, r) := Triaged(s.session, cfg, req.clientId, OrElse(req.orgId, cfg.orgId), req.range, t.wire(0));
    var triage := EventLogItem(EvidenceId(s.index + 1), EVENT_LOGS, t.clock(0), r);
    if r.Threw? then s.(session := session, evidence := s.evidence + [triage])
    else
      var sampled := SampledIds(r.value);
      var raws := RequestedExpansions(sampled, t);
      var (after, items) := Details(req, cfg, session, s.index, Accepted(raws, req.range, sampled), t);
      s.(session := after, evidence := s.evidence + [triage] + items,
         limitations := s.limitations + Rejections(raws, req.range, sampled))
  }

  function AfterCollect(req: Request, cfg: Settings, s: State, t: Turn): (s': State)
    requires s.index < |s.plan|
    ensures Ready(s')
  {
    var s1 := if s.plan[s.index] == EVENT_LOGS then AfterEventLogs(req, cfg, s, t) else AfterOneTool(req, cfg, s, t);
    var s2 := s1.(index := s.index + 1);
    Visit(s2, Collect, Route(s2))
  }

  function AfterAssess(cfg: Settings, s: State, t: Turn): (s': State)
    ensures Ready(s')
  {
    match Fit(s.evidence, cfg.maxEvidenceChars)
    case Err(e) => Visit(s, Assess, Failed(e))
    case Ok(shown) =>
      if t.assessment.None? then Visit(s, Assess, Failed("assessment"))
      else
        var a := Validated(t.assessment.value, shown);
        Visit(s.(assessment := Some(a.(limitations := a.limitations + s.limitations))), Assess, At(RenderReport))
  }

  function AfterRender(cfg: Settings, s: State): (s': State)
    requires s.assessment.Some?
    ensures Ready(s')
  {
    match Fit(s.evidence, cfg.maxEvidenceChars)
    case Err(e) => Visit(s, RenderReport, Failed(e))
    case Ok(shown) => Visit(s.(report := Some(Report(shown, s.assessment.value))), RenderReport, Finished)
  }

  ghost function Next(req: Request, cfg: Settings, s: State, t: Turn): (s': State)
    requires Ready(s)
    ensures Ready(s')
  {
    match s.phase
    case At(VerifyTarget) => AfterVerify(req, cfg, s, t)
    case At(MakePlan) => AfterPlan(req, cfg, s, t)
    case At(Collect) => AfterCollect(req, cfg, s, t)
    case At(PlanTier2) => AfterTier2(req, cfg, s, t)
    case At(Assess) => AfterAssess(cfg, s, t)
    case At(RenderReport) => AfterRender(cfg, s)
    case _ => s
  }

  /** The state after n node visits, for the outside world `env`. */
  ghost function After(req: Request, cfg: Settings, env: nat -> Turn, n: nat): (s: State)
    ensures Ready(s)
  {
    if n == 0 then START else Next(req, cfg, After(req, cfg, env, n - 1), env(n - 1))
  }

  // ----- what each node leaves behind -----

  /** The organisation a node asks for: the request's, or the settings' when it names none. */
  function OwnOrg(req: Request, cfg: Settings): string {
    if req.orgId == "" then cfg.orgId else req.orgId
  }

  /** What an item records of a tool's answer: success with its data, or failure with an error and nothing else. */
  ghost predicate Records(item: Item, r: Outcome<Envelope>) {
    && (item.ok <==> r.Returned? && r.value.ok && (r.value.pagination.Null? || r.value.pagination.Obj?))
    && (if item.ok then item.data == r.value.data && item.pagination == r.value.pagination && item.error == Null
        else item.data == Null && item.pagination == Null && item.error.Str? && item.error != Str(""))
    && (item.timeout <==> r == Threw(Deadline))
    && (item.timeout <==> item.error == Str("MCP collection timed out."))
    && (r.Returned? && !r.value.ok <==> item.error == Str("MCP tool returned a failed envelope."))
  }

  /** What an item records of an event-log answer. */
  ghost predicate RecordsMetadata(item: Item, r: Outcome<Json>) {
    && (item.ok <==> r.Returned?)
    && (if item.ok then item.data == r.value && item.error == Null
        else item.data == Null && item.error.Str? && item.error != Str(""))
    && item.pagination == Null
    && (item.timeout <==> r == Threw(Deadline))
  }

  lemma ItemRecords(id: string, tool: string, at: string, r: Outcome<Envelope>)
    ensures var item := CollectedItem(id, tool, at, r);
            item.id == id && item.tool == tool && item.collectedAt == at && Records(item, r)
  {
    ErrorTextsDiffer(if r.Threw? && r.fault.Fault? then r.fault.kind else "");
  }

  lemma ErrorTextsDiffer(kind: string)
    ensures var failed := "MCP collection failed: " + kind + ".";
            failed != "MCP collection timed out." && failed != "MCP tool returned a failed envelope."
    ensures "MCP collection timed out." != "MCP tool returned a failed envelope."
  {
    var failed := "MCP collection failed: " + kind + ".";
    assert failed[15] == 'f' && "MCP collection timed out."[15] == 't' && failed[4] == 'c';
    assert "MCP tool returned a failed envelope."[4] == 't' && "MCP collection timed out."[4] == 'c';
  }

  lemma MetadataItemRecords(id: string, tool: string, at: string, r: Outcome<Json>)
    ensures var item := EventLogItem(id, tool, at, r);
            item.id == id && item.tool == tool && item.collectedAt == at && RecordsMetadata(item, r)
  {
  }

  /**
   * Collecting with any tool but event logs adds one item, numbered after the step, which records what became of
   * the call, and leaves the rest of the state alone.
   */
  ghost predicate CollectsOne(req: Request, cfg: Settings, s: State, t: Turn, s': State)
    requires s.index < |s.plan|
  {
    exists r: Outcome<Envelope>, item: Item ::
      && CollectGoes(s.session, s'.session, r, req.clientId, OwnOrg(req, cfg), s.plan[s.index], req.range, 50, 0,
                     CustomNames(req), t.wire(0), cfg.maxToolResultChars)
      && item.id == EvidenceId(s.index + 1) && item.tool == s.plan[s.index] && item.collectedAt == t.clock(0)
      && Records(item, r)
      && s' == s.(session := s'.session, evidence := s.evidence + [item])
  }

  lemma OneToolCollects(req: Request, cfg: Settings, s: State, t: Turn)
    requires s.index < |s.plan|
    ensures CollectsOne(req, cfg, s, t, AfterOneTool(req, cfg, s, t))
  {
    hide Collected, CollectedItem, CollectGoes, Records, EvidenceId, CustomNames;
    var tool, org := s.plan[s.index], OrElse(req.orgId, cfg.orgId);
    CollectedGoes(s.session, cfg, tool, req.clientId, org, req.range, 50, 0, CustomNames(req), t.wire(0));
    var (_, r) := Collected(s.session, cfg, tool, req.clientId, org, req.range, 50, 0, CustomNames(req), t.wire(0));
    ItemRecords(EvidenceId(s.index + 1), tool, t.clock(0), r);
    assert (if org == "" then cfg.orgId else org) == OwnOrg(req, cfg);
  }

  /** The ids a triage result reports are the texts of the sampled ids that count as something. */
  lemma SampledIdsAre(kept: Json, data: Json, id: string)
    requires IsMetadata(kept, data, true)
    ensures var sampled := Get(data, "sampled_event_ids", Arr([]));
            id in SampledIds(kept) <==>
            sampled.Arr? && exists eid :: eid in sampled.items && Truthy(eid) && PyStr(eid) == id
    ensures var sampled := Get(data, "sampled_event_ids", Arr([]));
            sampled.Arr? && id != "" && Str(id) in sampled.items ==> id in SampledIds(kept)
  {
    hide Get;
    EventIdsField(kept, data);
    assert Truthy(Str(id)) <==> id != "";
    assert PyStr(Str(id)) == id;
  }

  lemma EventIdsField(kept: Json, data: Json)
    requires IsMetadata(kept, data, true)
    ensures Get(kept, "event_ids", Null) == Get(data, "sampled_event_ids", Arr([]))
  {
  }

  /** The event-log stages: a triage item, one item per accepted expansion, and the labels of the others. */
  ghost predicate CollectsEventLogs(req: Request, cfg: Settings, s: State, t: Turn, s': State) {
    exists session: Session, r: Outcome<Json>, triage: Item ::
      && TriageGoes(s.session, session, r, req.clientId, OwnOrg(req, cfg), req.range, t.wire(0))
      && triage.id == EvidenceId(s.index + 1) && triage.tool == EVENT_LOGS && triage.collectedAt == t.clock(0)
      && RecordsMetadata(triage, r)
      && s' == s.(session := s'.session, evidence := s'.evidence, limitations := s'.limitations)
      && |s'.evidence| > |s.evidence| && s'.evidence[..|s.evidence|] == s.evidence
      && s'.evidence[|s.evidence|] == triage
      && (r.Threw? ==> s'.session == session && |s'.evidence| == |s.evidence| + 1 && s'.limitations == s.limitations)
      && (r.Returned? ==>
            var sampled := SampledIds(r.value);
            var raws := if sampled != {} && t.expansions.Expanded? then t.expansions.raws else [];
            && s'.limitations == s.limitations + Rejections(raws, req.range, sampled)
            && CollectsDetails(req, cfg, session, s'.session, s.index, Accepted(raws, req.range, sampled), t,
                               s'.evidence[|s.evidence| + 1..]))
  }

  /** One call after the other, each with its own item. */
  ghost predicate CollectsDetails(req: Request, cfg: Settings, session: Session, session': Session, index: nat,
                                  es: seq<Expansion>, t: Turn, items: seq<Item>)
  {
    exists sessions: seq<Session> ::
      && |items| == |es| && |sessions| == |es| + 1 && sessions[0] == session && sessions[|es|] == session'
      && forall k :: 0 <= k < |es| ==>
           CollectsDetail(req, cfg, sessions[k], sessions[k + 1], index, k, es[k], t, items[k])
  }

  ghost predicate CollectsDetail(req: Request, cfg: Settings, before: Session, after: Session, index: nat, k: nat,
                                 e: Expansion, t: Turn, item: Item)
  {
    exists r: Outcome<Json> ::
      && DetailGoes(before, after, r, req.clientId, OwnOrg(req, cfg), e, t.wire(k + 1))
      && item.id == EvidenceId(index + 2 + k) && item.tool == EVENT_LOGS_DETAIL && item.collectedAt == t.clock(k + 1)
      && RecordsMetadata(item, r)
  }

  lemma OneDetailCollects(req: Request, cfg: Settings, before: Session, index: nat, k: nat, e: Expansion, t: Turn)
    ensures var (after, r) := Detailed(before, cfg, req.clientId, OrElse(req.orgId, cfg.orgId), e, t.wire(k + 1));
            CollectsDetail(req, cfg, before, after, index, k, e, t,
                           EventLogItem(EvidenceId(index + 2 + k), EVENT_LOGS_DETAIL, t.clock(k + 1), r))
  {
    hide Detailed, EventLogItem, DetailGoes, RecordsMetadata, EvidenceId;
    var org := OrElse(req.orgId, cfg.orgId);
    var (after, r) := Detailed(before, cfg, req.clientId, org, e, t.wire(k + 1));
    DetailedGoes(before, cfg, req.clientId, org, e, t.wire(k + 1));
    MetadataItemRecords(EvidenceId(index + 2 + k), EVENT_LOGS_DETAIL, t.clock(k + 1), r);
    assert (if org == "" then cfg.orgId else org) == OwnOrg(req, cfg);
  }

  lemma {:induction false} DetailsCollect(req: Request, cfg: Settings, session: Session, index: nat, es: seq<Expansion>,
                                          t: Turn)
    ensures var (after, items) := Details(req, cfg, session, index, es, t);
            CollectsDetails(req, cfg, session, after, index, es, t, items)
  {
    hide Detailed, EventLogItem, EvidenceId, CollectsDetail;
    var (after, items) := Details(req, cfg, session, index, es, t);
    if es == [] {
      assert [session][0] == session && [session][|es|] == session;
    } else {
      var last, init := |es| - 1, es[..|es| - 1];
      DetailsCollect(req, cfg, session, index, init, t);
      var (before, most) := Details(req, cfg, session, index, init, t);
      OneDetailCollects(req, cfg, before, index, last, es[last], t);
      assert index + 2 + last == index + 1 + |es| && last + 1 == |es|;
      var sessions :|
        && |sessions| == |init| + 1 && sessions[0] == session && sessions[|init|] == before
        && forall k :: 0 <= k < |init| ==>
             CollectsDetail(req, cfg, sessions[k], sessions[k + 1], index, k, init[k], t, most[k]);
      var all := sessions + [after];
      assert all[0] == session && all[|es|] == after && all[last] == before;
      assert items[..last] == most && |items| == |es|;
      forall k | 0 <= k < |es| ensures CollectsDetail(req, cfg, all[k], all[k + 1], index, k, es[k], t, items[k]) {
        if k < last {
          assert init[k] == es[k] && most[k] == items[k];
        }
      }
    }
  }

  /** Collecting leaves the plan, the index and the record of the run alone. */
  lemma CollectKeeps(req: Request, cfg: Settings, s: State, t: Turn, s': State)
    requires s.index < |s.plan|
    requires CollectsOne(req, cfg, s, t, s') || CollectsEventLogs(req, cfg, s, t, s')
    ensures s' == s.(session := s'.session, evidence := s'.evidence, limitations := s'.limitations)
  {
    hide CollectGoes, TriageGoes, CollectsDetails, RecordsMetadata, Records;
  }

  lemma EventLogsCollect(req: Request, cfg: Settings, s: State, t: Turn)
    ensures CollectsEventLogs(req, cfg, s, t, AfterEventLogs(req, cfg, s, t))
  {
    hide Triaged, EventLogItem, EvidenceId, TriageGoes, RecordsMetadata, SampledIds, Accepted, Rejections, Details,
      CollectsDetails;
    var org := OrElse(req.orgId, cfg.orgId);
    var (session, r) := Triaged(s.session, cfg, req.clientId, org, req.range, t.wire(0));
    TriagedGoes(s.session, cfg, req.clientId, org, req.range, t.wire(0));
    assert (if org == "" then cfg.orgId else org) == OwnOrg(req, cfg);
    var triage := EventLogItem(EvidenceId(s.index + 1), EVENT_LOGS, t.clock(0), r);
    MetadataItemRecords(EvidenceId(s.index + 1), EVENT_LOGS, t.clock(0), r);
    var s' := AfterEventLogs(req, cfg, s, t);
    assert s'.evidence[..|s.evidence|] == s.evidence;
    if r.Returned? {
      var sampled := SampledIds(r.value);
      var es := Accepted(RequestedExpansions(sampled, t), req.range, sampled);
      DetailsCollect(req, cfg, session, s.index, es, t);
      var (after, items) := Details(req, cfg, session, s.index, es, t);
      assert s'.evidence[|s.evidence| + 1..] == items;
    }
  }

  // ----- the nodes, as they run -----

  method RunVerify(req: Request, mcp: VelociraptorAdapter, s: State, t: Turn) returns (s': State)
    requires mcp.View() == s.session
    modifies mcp
    requires s.index == 0
    ensures s' == AfterVerify(req, mcp.settings, s, t) && mcp.View() == s'.session
  {
    var r := mcp.VerifyTarget(req.clientId, OrElse(req.orgId, mcp.settings.orgId), t.wire(0));
    var s1 := s.(session := mcp.View());
    if r.Threw? {
      return Visit(s1, VerifyTarget, Failed("target verification"));
    }
    return Visit(s1.(evidence := [], index := 0, tier2Planned := false), VerifyTarget, At(MakePlan));
  }

  method RunPlan(req: Request, cfg: Settings, s: State, t: Turn) returns (s': State)
    requires cfg.maxSteps >= 1
    requires s.index == 0
    ensures s' == AfterPlan(req, cfg, s, t)
  {
    if t.plan.None? {
      return Visit(s, MakePlan, Failed("planning"));
    }
    var steps := SanitizePlan(t.plan.value, InitialLimit(cfg), InitialNames(req), req.platform);
    if steps == [] {
      return Visit(s, MakePlan, Failed("empty plan"));
    }
    return Visit(s.(plan := steps, initial := |steps|), MakePlan, At(Collect));
  }

  method RunTier2(req: Request, cfg: Settings, s: State, t: Turn) returns (s': State)
    ensures s' == AfterTier2(req, cfg, s, t)
  {
    var candidates := Tier2Names(req);
    var fitted := FitEvidenceBudget(s.evidence, cfg.maxEvidenceChars);
    if fitted.Err? {
      return Visit(s, PlanTier2, Failed(fitted.exception));
    }
    s' := s.(tier2Planned := true);
    if candidates != {} {
      match t.tier2
      case Tier2Raised =>
        s' := s'.(limitations := s.limitations + ["tier2_planning_failed"]);
      case Proposed(proposals) =>
        var accepted := SelectTier2(proposals, candidates, fitted.value);
        s' := s'.(plan := s.plan + accepted);
      case _ =>
    }
    s' := Visit(s', PlanTier2, Route(s'));
  }

  method RunOneTool(req: Request, mcp: VelociraptorAdapter, s: State, t: Turn) returns (s': State)
    requires mcp.View() == s.session && s.index < |s.plan|
    modifies mcp
    ensures s' == AfterOneTool(req, mcp.settings, s, t) && mcp.View() == s'.session
    ensures CollectsOne(req, mcp.settings, s, t, s')
  {
    OneToolCollects(req, mcp.settings, s, t);
    hide Collected, EvidenceId, CollectedItem, CustomNames, CollectsOne, CollectGoes;
    var tool := s.plan[s.index];
    var r := mcp.Collect(tool, req.clientId, OrElse(req.orgId, mcp.settings.orgId), req.range, 50, 0,
                         CustomNames(req), t.wire(0));
    s' := s.(session := mcp.View(),
             evidence := s.evidence + [CollectedItem(EvidenceId(s.index + 1), tool, t.clock(0), r)]);
  }

  /** Stage 3: one detail call per accepted expansion; a failure becomes a failed item. */
  method RunDetails(req: Request, mcp: VelociraptorAdapter, index: nat, expansions: seq<Expansion>, t: Turn)
    returns (items: seq<Item>)
    modifies mcp
    ensures (mcp.View(), items) == Details(req, mcp.settings, old(mcp.View()), index, expansions, t)
    ensures CollectsDetails(req, mcp.settings, old(mcp.View()), mcp.View(), index, expansions, t, items)
  {
    hide Detailed, EvidenceId, EventLogItem, CollectsDetails, DetailGoes;
    items := [];
    for k := 0 to |expansions|
      invariant (mcp.View(), items) == Details(req, mcp.settings, old(mcp.View()), index, expansions[..k], t)
    {
      assert expansions[..k + 1][..k] == expansions[..k];
      var org := OrElse(req.orgId, mcp.settings.orgId);
      var detail := mcp.CollectEventLogDetail(req.clientId, org, expansions[k], t.wire(k + 1));
      items := items + [EventLogItem(EvidenceId(index + 1 + (k + 1)), EVENT_LOGS_DETAIL, t.clock(k + 1), detail)];
    }
    assert expansions[..|expansions|] == expansions;
    DetailsCollect(req, mcp.settings, old(mcp.View()), index, expansions, t);
  }

  method RunEventLogs(req: Request, mcp: VelociraptorAdapter, s: State, t: Turn) returns (s': State)
    requires mcp.View() == s.session
    modifies mcp
    ensures s' == AfterEventLogs(req, mcp.settings, s, t) && mcp.View() == s'.session
    ensures CollectsEventLogs(req, mcp.settings, s, t, s')
  {
    hide Triaged, Details, Accepted, Rejections, SampledIds, EvidenceId, RequestedExpansions, CollectsEventLogs,
      TriageGoes;
    var org := OrElse(req.orgId, mcp.settings.orgId);
    var r := mcp.CollectEventLogTriage(req.clientId, org, req.range, t.wire(0));
    var triage := EventLogItem(EvidenceId(s.index + 1), EVENT_LOGS, t.clock(0), r);
    var evidence := s.evidence + [triage];
    EventLogsCollect(req, mcp.settings, s, t);
    if r.Threw? {
      return s.(session := mcp.View(), evidence := evidence);
    }
    var sampled := SampledIds(r.value);
    var raws := RequestedExpansions(sampled, t);
    var expansions, rejections, _ := ValidateExpansions(raws, req.range, sampled);
    var items := RunDetails(req, mcp, s.index, expansions, t);
    s' := s.(session := mcp.View(), evidence := evidence + items, limitations := s.limitations + rejections);
  }

  method RunCollect(req: Request, mcp: VelociraptorAdapter, s: State, t: Turn) returns (s': State)
    requires mcp.View() == s.session && s.index < |s.plan|
    modifies mcp
    ensures s' == AfterCollect(req, mcp.settings, s, t) && mcp.View() == s'.session
    ensures var s1 := s'.(index := s.index, phase := s.phase, visits := s.visits);
            if s.plan[s.index] == EVENT_LOGS then CollectsEventLogs(req, mcp.settings, s, t, s1)
            else CollectsOne(req, mcp.settings, s, t, s1)
    ensures s'.index == s.index + 1 && s'.visits == s.visits + [Collect]
    ensures s'.phase == At(if s'.index < |s.plan| then Collect else if s.tier2Planned then Assess else PlanTier2)
  {
    hide AfterEventLogs, AfterOneTool, CollectsEventLogs, CollectsOne;
    if s.plan[s.index] == EVENT_LOGS {
      s' := RunEventLogs(req, mcp, s, t);
    } else {
      s' := RunOneTool(req, mcp, s, t);
    }
    ghost var s1 := s';
    s' := s'.(index := s.index + 1);
    s' := Visit(s', Collect, Route(s'));
    CollectKeeps(req, mcp.settings, s, t, s1);
  }

  method RunAssess(cfg: Settings, s: State, t: Turn) returns (s': State)
    ensures s' == AfterAssess(cfg, s, t)
  {
    var fitted := FitEvidenceBudget(s.evidence, cfg.maxEvidenceChars);
    if fitted.Err? {
      return Visit(s, Assess, Failed(fitted.exception));
    }
    if t.assessment.None? {
      return Visit(s, Assess, Failed("assessment"));
    }
    var validated := ValidateAssessment(t.assessment.value, fitted.value);
    if s.limitations != [] {
      validated := validated.(limitations := validated.limitations + s.limitations);
    }
    assert validated.limitations + [] == validated.limitations;
    s' := Visit(s.(assessment := Some(validated)), Assess, At(RenderReport));
  }

  method RunRender(cfg: Settings, s: State) returns (s': State)
    requires s.assessment.Some?
    ensures s' == AfterRender(cfg, s)
  {
    var fitted := FitEvidenceBudget(s.evidence, cfg.maxEvidenceChars);
    if fitted.Err? {
      return Visit(s, RenderReport, Failed(fitted.exception));
    }
    s' := Visit(s.(report := Some(Report(fitted.value, s.assessment.value))), RenderReport, Finished);
  }
}
