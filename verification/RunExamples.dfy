/** Runs that do happen: one that finishes, one whose evidence ids repeat, and one that plans a tool twice. */
module RunExamples {
  import opened Common
  import opened Catalog
  import opened Json
  import opened EvidenceBudget
  import opened Planning
  import opened Sequences
  import opened Expansions
  import opened Bridge
  import opened Workflow
  import opened Runs
  import opened RunEvidence

  // ----- a bridge that answers everything -----

  const OFFERED: ToolTable :=
    map["list_clients" := {}, COLLECT_CUSTOM := {}, EVENT_LOGS_TRIAGE := {}, EVENT_LOGS_DETAIL := {},
        "windows_pslist" := {}]

  const SAMPLED := "4624"

  /** One answer for every call: it names the client and reports one event id. */
  function Data(client: string): Json {
    Obj([Field("clients", Arr([Obj([Field("client_id", Str(client))])])),
         Field("sampled_event_ids", Arr([Str(SAMPLED)]))])
  }

  function Helpful(client: string, pagination: Json, plan: seq<string>, tier2: Tier2Reply, expansions: ExpansionReply)
    : Turn
  {
    Turn(_ => "", _ => Wire(Listed(OFFERED), Answer(Envelope(true, Data(client), pagination))),
         Some(plan), tier2, expansions, Some(Assessment("info", [], [], [])))
  }

  function Always(t: Turn): nat -> Turn {
    _ => t
  }

  /** The bridge answers so at every call of this turn. */
  ghost predicate Answers(t: Turn, client: string, pagination: Json) {
    forall k: nat :: t.wire(k) == Wire(Listed(OFFERED), Answer(Envelope(true, Data(client), pagination)))
  }

  lemma DataFields(client: string)
    ensures var data := Data(client);
            && Get(data, "clients", Null) == Arr([Obj([Field("client_id", Str(client))])])
            && Get(data, "sampled_event_ids", Arr([])) == Arr([Str(SAMPLED)])
            && Get(data, "truncated", Null) == Null && Loggable(data)
            && Get(Obj([Field("client_id", Str(client))]), "client_id", Null) == Str(client)
  {
    var fields := Data(client).fields;
    assert "clients"[0] == 'c' && "sampled_event_ids"[0] == 's' && "truncated"[0] == 't';
    LookupFinds(fields, "clients", Null, 0);
    LookupFinds(fields, "sampled_event_ids", Arr([]), 1);
    LookupMisses(fields, "truncated", Null);
    LookupFinds([Field("client_id", Str(client))], "client_id", Null, 0);
  }

  lemma OfferedTools()
    ensures "list_clients" in OFFERED && COLLECT_CUSTOM in OFFERED && EVENT_LOGS_TRIAGE in OFFERED &&
        EVENT_LOGS_DETAIL in OFFERED
  {
  }

  // ----- the nodes with such a bridge -----

  lemma ClientIsFound(client: string)
    ensures FirstNamed(Rows(Data(client)), client).Some?
  {
    hide Data;
    DataFields(client);
    var row := Obj([Field("client_id", Str(client))]);
    if client == "" {
      assert Names(row, client) by { NamelessRow(); }
    }
    assert Rows(Data(client)) == [row] by { RowsOfData(client); }
  }

  lemma RowsOfData(client: string)
    ensures Rows(Data(client)) == [Obj([Field("client_id", Str(client))])]
  {
    DataFields(client);
  }

  lemma NamelessRow()
    ensures Names(Obj([Field("client_id", Str(""))]), "")
  {
    var row := Obj([Field("client_id", Str(""))]);
    assert row.fields[1..] == [];
    assert "client_id"[0] != "ClientId"[0];
    assert Get(row, "ClientId", Null) == Null;
    assert Get(row, "client_id", Null) == Str("");
  }

  /** Past verification. */
  ghost predicate PastVerification(s: State) {
    && s.phase == At(MakePlan) && s.plan == [] && s.index == 0 && s.evidence == [] && !s.tier2Planned
    && s.session.tools == Some(OFFERED)
  }

  lemma VerificationSucceeds(req: Request, cfg: Settings, t: Turn, pagination: Json)
    requires Answers(t, req.clientId, pagination)
    ensures PastVerification(AfterVerify(req, cfg, START, t))
  {
    ClientIsFound(req.clientId);
    DataFields(req.clientId);
    hide Data, FirstNamed, Rows, VerifyArguments, Loggable;
    OfferedTools();
    assert t.wire(0).discovery == Listed(OFFERED);
  }

  /** A plan of allowed, different tools within the limit is taken as it is. */
  lemma {:induction false} AllowedPlanIsKept(plan: seq<string>, allowed: set<string>, limit: nat)
    requires NoRepeats(plan) && |plan| <= limit && forall tool :: tool in plan ==> tool in allowed
    ensures FirstAllowed(plan, allowed, limit) == plan
  {
    AllKept(plan, allowed);
  }

  lemma {:induction false} AllKept(plan: seq<string>, allowed: set<string>)
    requires NoRepeats(plan) && forall tool :: tool in plan ==> tool in allowed
    ensures Keep(plan, allowed) == plan && Distinct(plan) == plan
  {
    if plan != [] {
      var init, last := plan[..|plan| - 1], plan[|plan| - 1];
      AllKept(init, allowed);
      assert last !in init;
    }
  }

  lemma PlanIsTaken(req: Request, cfg: Settings, s: State, t: Turn, plan: seq<string>)
    requires PastVerification(s) && t.plan == Some(plan) && plan != [] && |plan| <= InitialLimit(cfg) && NoRepeats(plan)
    requires forall tool :: tool in plan ==> tool in StaticTools(req.platform) + InitialNames(req)
    ensures var s' := AfterPlan(req, cfg, s, t);
            && s'.phase == At(Collect) && s'.plan == plan && s'.index == 0 && s'.evidence == [] && !s'.tier2Planned
            && s'.session.tools == Some(OFFERED)
  {
    AllowedPlanIsKept(plan, StaticTools(req.platform) + InitialNames(req), InitialLimit(cfg));
    hide FirstAllowed, InitialNames, StaticTools;
  }

  /** Nothing in the evidence makes fitting raise. */
  ghost predicate NeverRaises(evidence: seq<Item>) {
    forall item :: item in evidence ==> Sliceable(item)
  }

  lemma AlwaysFits(evidence: seq<Item>, maxChars: int)
    requires NeverRaises(evidence)
    ensures Fit(evidence, maxChars).Ok?
  {
    hide Sliceable, Fit;
    NeverRaisesExactlyWhen(evidence);
  }

  lemma Tier2WithoutProposal(req: Request, cfg: Settings, s: State, t: Turn)
    requires s.phase == At(PlanTier2) && s.index == |s.plan| && Fit(s.evidence, cfg.maxEvidenceChars).Ok? &&
        t.tier2 == NoProposal
    ensures var s' := AfterTier2(req, cfg, s, t);
            s'.phase == At(Assess) && s'.plan == s.plan && s'.evidence == s.evidence
  {
    hide Fit, Tier2Names;
  }

  lemma AssessedAndRendered(req: Request, cfg: Settings, s: State, t: Turn)
    requires s.phase == At(Assess) && Fit(s.evidence, cfg.maxEvidenceChars).Ok? && t.assessment.Some?
    ensures var s1 := AfterAssess(cfg, s, t);
            && s1.phase == At(RenderReport) && s1.assessment.Some?
            && var s2 := AfterRender(cfg, s1);
               s2.phase == Finished && s2.plan == s.plan && s2.evidence == s.evidence
  {
    hide Fit, Validated;
  }

  /** From assessment a run finishes in two more visits, with the same plan and evidence. */
  lemma FinishesFromAssess(req: Request, cfg: Settings, t: Turn, n: nat)
    requires After(req, cfg, Always(t), n).phase == At(Assess) && t.assessment.Some?
    requires NeverRaises(After(req, cfg, Always(t), n).evidence)
    ensures var s, s' := After(req, cfg, Always(t), n), After(req, cfg, Always(t), n + 2);
            s'.phase == Finished && s'.plan == s.plan && s'.evidence == s.evidence
  {
    hide After, Fit, AfterVerify, AfterPlan, AfterCollect, AfterTier2, AfterAssess, AfterRender, NeverRaises;
    var s := After(req, cfg, Always(t), n);
    AlwaysFits(s.evidence, cfg.maxEvidenceChars);
    StepOfConstant(req, cfg, t, n);
    AssessedAndRendered(req, cfg, s, t);
    StepOfConstant(req, cfg, t, n + 1);
  }

  /** From tier-2 planning a run without proposals finishes in three more visits, with the same plan and evidence. */
  lemma FinishesFromTier2(req: Request, cfg: Settings, t: Turn, n: nat)
    requires var s := After(req, cfg, Always(t), n);
             s.phase == At(PlanTier2) && s.index == |s.plan| && NeverRaises(s.evidence)
    requires t.tier2 == NoProposal && t.assessment.Some?
    ensures var s, s' := After(req, cfg, Always(t), n), After(req, cfg, Always(t), n + 3);
            s'.phase == Finished && s'.plan == s.plan && s'.evidence == s.evidence
  {
    hide After, Fit, AfterVerify, AfterPlan, AfterCollect, AfterTier2, AfterAssess, AfterRender, NeverRaises;
    var s := After(req, cfg, Always(t), n);
    AlwaysFits(s.evidence, cfg.maxEvidenceChars);
    StepOfConstant(req, cfg, t, n);
    Tier2WithoutProposal(req, cfg, s, t);
    FinishesFromAssess(req, cfg, t, n + 1);
  }

  lemma StepOfConstant(req: Request, cfg: Settings, t: Turn, n: nat)
    ensures After(req, cfg, Always(t), n + 1) == Next(req, cfg, After(req, cfg, Always(t), n), t)
  {
    hide Next;
  }

  lemma Truncating(envelope: Envelope, maxChars: nat)
    requires !WasTruncated(envelope.data)
    ensures WasTruncated(Truncated(envelope, maxChars).data) ==>
        Get(Truncated(envelope, maxChars).data, "preview", Str("")).Str?
    ensures Loggable(Truncated(envelope, maxChars).data)
    ensures Truncated(envelope, maxChars).pagination == envelope.pagination &&
        Truncated(envelope, maxChars).ok == envelope.ok
  {
    hide Dump;
    var r := Truncated(envelope, maxChars);
    if r != envelope {
      assert "truncated"[0] == 't' && "original_chars"[0] == 'o' && "preview"[0] == 'p';
      LookupFinds(r.data.fields, "preview", Str(""), 2);
    }
  }

  /** A successful answer's data, cut or not, never makes fitting raise. */
  ghost predicate SafeData(data: Json) {
    WasTruncated(data) ==> Get(data, "preview", Str("")).Str?
  }

  lemma AnswerIsSafe(req: Request, cfg: Settings, s: State, t: Turn, pagination: Json)
    requires s.index < |s.plan| && Answers(t, req.clientId, pagination)
    ensures var r := Collected(s.session, cfg, s.plan[s.index], req.clientId, OrElse(req.orgId, cfg.orgId), req.range,
                               50, 0, CustomNames(req), t.wire(0)).1;
            && (r.Returned? ==> r.value.ok && r.value.pagination == pagination && SafeData(r.value.data))
            && (s.plan[s.index] in CustomNames(req) && CUSTOM_PREFIX <= s.plan[s.index] &&
                s.session.tools == Some(OFFERED) ==>
                  r.Returned?)
  {
    hide Data, CustomNames, StaticArguments, CustomArguments, Truncated, Get, WasTruncated, Loggable;
    var answer := Envelope(true, Data(req.clientId), pagination);
    assert !WasTruncated(answer.data) by { DataIsWhole(req.clientId); }
    OfferedTools();
    Truncating(answer, cfg.maxToolResultChars);
    assert t.wire(0).reply == Answer(answer);
  }

  lemma DataIsWhole(client: string)
    ensures !WasTruncated(Data(client))
  {
    DataFields(client);
  }

  lemma SafeItem(id: string, tool: string, at: string, r: Outcome<Envelope>)
    requires r.Returned? ==> r.value.ok && SafeData(r.value.data)
    requires r.Returned? ==> r.value.pagination.Null? || r.value.pagination.Obj?
    ensures var item := CollectedItem(id, tool, at, r);
            Sliceable(item) && item.tool == tool && (r.Returned? ==> item.pagination == r.value.pagination)
  {
    hide Get;
  }

  /** A step other than event logs leaves one item on which fitting never raises. */
  lemma OneToolCollected(req: Request, cfg: Settings, s: State, t: Turn, pagination: Json)
    requires s.index < |s.plan| && s.plan[s.index] != EVENT_LOGS && Answers(t, req.clientId, pagination)
    requires pagination.Null? || pagination.Obj?
    ensures var s' := AfterCollect(req, cfg, s, t);
            && s'.evidence == s.evidence + [s'.evidence[|s.evidence|]] && Sliceable(s'.evidence[|s.evidence|])
            && s'.evidence[|s.evidence|].tool == s.plan[s.index]
            && (s.plan[s.index] in CustomNames(req) && CUSTOM_PREFIX <= s.plan[s.index] &&
                s.session.tools == Some(OFFERED) ==>
                  s'.evidence[|s.evidence|].pagination == pagination)
  {
    hide CustomNames, EvidenceId, Collected, CollectedItem, Sliceable, SafeData, Answers, AfterEventLogs;
    AnswerIsSafe(req, cfg, s, t, pagination);
    var r := Collected(s.session, cfg, s.plan[s.index], req.clientId, OrElse(req.orgId, cfg.orgId), req.range,
                       50, 0, CustomNames(req), t.wire(0)).1;
    SafeItem(EvidenceId(s.index + 1), s.plan[s.index], t.clock(0), r);
  }

  // ----- a run can finish exactly when there is something to collect -----

  lemma OneStepRun(req: Request, cfg: Settings, tool: string, t: Turn, pagination: Json)
    requires cfg.maxSteps >= 1 && tool in StaticTools(req.platform) + InitialNames(req) && tool != EVENT_LOGS
    requires Answers(t, req.clientId, pagination) && (pagination.Null? || pagination.Obj?) && t.plan == Some([tool])
    ensures var s := After(req, cfg, Always(t), 3);
            && s.phase == At(PlanTier2) && s.plan == [tool] && s.index == 1 && |s.evidence| == 1 &&
                NeverRaises(s.evidence)
            && s.evidence[0].tool == tool
            && (tool in CustomNames(req) && CUSTOM_PREFIX <= tool ==> s.evidence[0].pagination == pagination)
  {
    hide AfterVerify, AfterPlan, AfterCollect, AfterTier2, AfterAssess, AfterRender, PastVerification, InitialNames,
         CustomNames, Sliceable, Answers, After;
    StartOfRun(req, cfg, t);
    StepOfConstant(req, cfg, t, 0);
    StepOfConstant(req, cfg, t, 1);
    StepOfConstant(req, cfg, t, 2);
    VerificationSucceeds(req, cfg, t, pagination);
    var s1 := AfterVerify(req, cfg, START, t);
    assert s1.phase == At(MakePlan) && s1.index == 0 by { PastVerificationMeans(s1); }
    PlanIsTaken(req, cfg, s1, t, [tool]);
    var s2 := AfterPlan(req, cfg, s1, t);
    OneToolCollected(req, cfg, s2, t, pagination);
    CollectFrame(req, cfg, s2, t);
  }

  lemma PastVerificationMeans(s: State)
    requires PastVerification(s)
    ensures s.phase == At(MakePlan) && s.index == 0
  {
  }

  lemma StartOfRun(req: Request, cfg: Settings, t: Turn)
    ensures After(req, cfg, Always(t), 0) == START
  {
  }

  /** Some run finishes exactly when the target is Windows or has an initial artifact. */
  lemma RunCanFinishExactlyWhen(req: Request, cfg: Settings)
    requires cfg.maxSteps >= 1
    ensures (exists env: nat -> Turn, n: nat :: After(req, cfg, env, n).phase == Finished) <==>
            req.platform == Windows || InitialNames(req) != {}
  {
    hide After, InitialNames;
    if req.platform == Windows || InitialNames(req) != {} {
      var tool := FirstTool(req);
      var t := Helpful(req.clientId, Null, [tool], NoProposal, NoExpansionPlanner);
      HelpfulAnswers(req.clientId, Null, [tool], NoProposal, NoExpansionPlanner);
      OneStepRun(req, cfg, tool, t, Null);
      FinishesFromTier2(req, cfg, t, 3);
      assert After(req, cfg, Always(t), 6).phase == Finished;
    } else {
      forall env: nat -> Turn, n: nat ensures After(req, cfg, env, n).phase != Finished {
        WithoutToolsNoRunFinishes(req, cfg, env, n);
      }
    }
  }

  lemma HelpfulAnswers(client: string, pagination: Json, plan: seq<string>, tier2: Tier2Reply,
                       expansions: ExpansionReply)
    ensures Answers(Helpful(client, pagination, plan, tier2, expansions), client, pagination)
  {
    hide Data;
  }

  lemma FirstTool(req: Request) returns (tool: string)
    requires req.platform == Windows || InitialNames(req) != {}
    ensures tool in StaticTools(req.platform) + InitialNames(req) && tool != EVENT_LOGS
  {
    if req.platform == Windows {
      tool := "windows_pslist";
      assert |tool| == 14 && |EVENT_LOGS| == 18;
    } else {
      tool :| tool in InitialNames(req);
      CandidatesAreCustom(req, tool);
      assert EVENT_LOGS[0] == 'w' && CUSTOM_PREFIX[0] == 'c';
    }
  }

  // ----- evidence ids that repeat -----

  lemma SummaryFields(data: Json)
    requires Get(data, "truncated", Null) == Null
    ensures !WasTruncated(Summary(data, true)) && !WasTruncated(Summary(data, false))
    ensures Get(Summary(data, true), "event_ids", Null) == Get(data, "sampled_event_ids", Arr([]))
  {
    assert "truncated"[0] == 't' && "rows"[0] == 'r' && "original_rows"[0] == 'o' && "returned_rows"[0] == 'r';
    assert "event_ids"[0] == 'e';
    LookupFinds(Summary(data, true).fields, "truncated", Null, 3);
    LookupFinds(Summary(data, false).fields, "truncated", Null, 3);
    LookupFinds(Summary(data, true).fields, "event_ids", Null, 4);
  }

  /** The window of no length at the start of the case range is permitted. */
  function Window(range: TimeRange): Expansion {
    Expansion(range.from, range.from, [SAMPLED])
  }

  lemma WindowIsAccepted(range: TimeRange)
    requires range.from <= range.to
    ensures Accepted([Object(Window(range))], range, {SAMPLED}) == [Window(range)]
  {
    var raws := [Object(Window(range))];
    assert IdSet(Window(range)) == {SAMPLED};
    assert Objection(raws[0], range, {SAMPLED}) == None;
    assert raws[..0] == [] && raws[..1] == raws;
    assert Unique([], range, {SAMPLED}) == [];
    OneMore(raws, 0, range, {SAMPLED});
    assert Unique(raws, range, {SAMPLED}) == [Window(range)];
  }

  /** What the event-log step adds once triage has answered. */
  lemma EventLogsAfterTriage(req: Request, cfg: Settings, s: State, t: Turn, session: Session, data: Json)
    requires s.index < |s.plan| && s.plan[s.index] == EVENT_LOGS
    requires Triaged(s.session, cfg, req.clientId, OrElse(req.orgId, cfg.orgId), req.range, t.wire(0)) ==
        (session, Returned(data))
    ensures var sampled := SampledIds(data);
            var es := Accepted(RequestedExpansions(sampled, t), req.range, sampled);
            AfterCollect(req, cfg, s, t).evidence ==
            s.evidence + [EventLogItem(EvidenceId(s.index + 1), EVENT_LOGS, t.clock(0), Returned(data))]
            + Details(req, cfg, session, s.index, es, t).1
  {
    hide Triaged, Details, Accepted, Rejections, SampledIds, EvidenceId, EventLogItem, RequestedExpansions,
        AfterOneTool;
  }

  /** The event-log step then leaves a triage item and one detail, on which fitting never raises. */
  lemma EventLogsCollected(req: Request, cfg: Settings, s: State, t: Turn)
    requires s.index < |s.plan| && s.plan[s.index] == EVENT_LOGS && s.evidence == [] && s.session.tools == Some(OFFERED)
    requires Answers(t, req.clientId, Null) && req.range.from <= req.range.to
    requires t.expansions == Expanded([Object(Window(req.range))])
    ensures var s' := AfterCollect(req, cfg, s, t);
            && |s'.evidence| == 2 && NeverRaises(s'.evidence)
            && s'.evidence[0].tool == EVENT_LOGS && s'.evidence[1].tool == EVENT_LOGS_DETAIL
  {
    hide Answers, Triaged, Details, Accepted, SampledIds, EvidenceId, WasTruncated, AfterCollect, Window, Sliceable;
    var (session, r) := Triaged(s.session, cfg, req.clientId, OrElse(req.orgId, cfg.orgId), req.range, t.wire(0));
    TriageAnswered(req, cfg, s.session, t);
    WindowIsAccepted(req.range);
    assert SampledIds(r.value) != {};
    EventLogsAfterTriage(req, cfg, s, t, session, r.value);
    DetailAnswered(req, cfg, session, s.index, t);
    WholeIsSliceable(EvidenceId(s.index + 1), t.clock(0), r.value);
  }

  lemma WholeIsSliceable(id: string, at: string, data: Json)
    requires !WasTruncated(data)
    ensures Sliceable(EventLogItem(id, EVENT_LOGS, at, Returned(data)))
  {
  }

  lemma TriageAnswered(req: Request, cfg: Settings, session: Session, t: Turn)
    requires session.tools == Some(OFFERED) && Answers(t, req.clientId, Null)
    ensures var (after, r) := Triaged(session, cfg, req.clientId, OrElse(req.orgId, cfg.orgId), req.range, t.wire(0));
            && after.tools == Some(OFFERED) && r.Returned? && SampledIds(r.value) == {SAMPLED} && !WasTruncated(r.value)
  {
    var data := Data(req.clientId);
    DataFields(req.clientId);
    SummaryFields(data);
    OfferedTools();
    assert t.wire(0).reply == Answer(Envelope(true, data, Null));
    hide Data, Summary, TriageArguments, Get, WasTruncated, Loggable;
    var (after, r) := Triaged(session, cfg, req.clientId, OrElse(req.orgId, cfg.orgId), req.range, t.wire(0));
    assert r == Returned(Summary(data, true));
    var eids := Arr([Str(SAMPLED)]);
    assert Get(r.value, "event_ids", Null) == eids;
    assert eids.items[0] == Str(SAMPLED) && PyStr(Str(SAMPLED)) == SAMPLED;
    forall id ensures id in SampledIds(r.value) <==> id == SAMPLED {
    }
  }

  lemma DetailAnswered(req: Request, cfg: Settings, session: Session, index: nat, t: Turn)
    requires session.tools == Some(OFFERED) && Answers(t, req.clientId, Null)
    ensures var (_, items) := Details(req, cfg, session, index, [Window(req.range)], t);
            |items| == 1 && items[0].tool == EVENT_LOGS_DETAIL && Sliceable(items[0])
  {
    var data, es := Data(req.clientId), [Window(req.range)];
    DataFields(req.clientId);
    SummaryFields(data);
    OfferedTools();
    assert t.wire(1).reply == Answer(Envelope(true, data, Null));
    hide Data, Summary, DetailArguments, EvidenceId, Get, WasTruncated, Loggable;
    assert es[..0] == [];
    assert Details(req, cfg, session, index, [], t) == (session, []);
    var (after, r) := Detailed(session, cfg, req.clientId, OrElse(req.orgId, cfg.orgId), Window(req.range), t.wire(1));
    assert r == Returned(Summary(data, false));
    assert Details(req, cfg, session, index, es, t).1 == [] +
        [EventLogItem(EvidenceId(index + 2), EVENT_LOGS_DETAIL, t.clock(1), r)];
  }

  /** On every Windows target with at least two steps, a run can finish with evidence ids that repeat. */
  lemma FinishedRunRepeatsIds(req: Request, cfg: Settings) returns (env: nat -> Turn)
    requires req.platform == Windows && req.range.from <= req.range.to && cfg.maxSteps >= 2
    ensures var s := After(req, cfg, env, 7);
            s.phase == Finished && HasDetail(s.evidence) && !NoRepeats(Ids(s.evidence))
  {
    hide After, HasDetail, NeverRaises, Ids;
    var plan := [EVENT_LOGS, "windows_pslist"];
    var t := Helpful(req.clientId, Null, plan, NoProposal, Expanded([Object(Window(req.range))]));
    HelpfulAnswers(req.clientId, Null, plan, NoProposal, Expanded([Object(Window(req.range))]));
    env := Always(t);
    EventLogsThenProcesses(req, cfg, t);
    FinishesFromTier2(req, cfg, t, 4);
    IdsDistinctExactlyWhen(req, cfg, env, 7);
    assert plan[1] != EVENT_LOGS by { assert |plan[1]| == 14 && |EVENT_LOGS| == 18; }
  }

  lemma EventLogsThenProcesses(req: Request, cfg: Settings, t: Turn)
    requires req.platform == Windows && req.range.from <= req.range.to && cfg.maxSteps >= 2
    requires Answers(t, req.clientId, Null) && t.expansions == Expanded([Object(Window(req.range))])
    requires t.plan == Some([EVENT_LOGS, "windows_pslist"])
    ensures var s := After(req, cfg, Always(t), 4);
            && s.phase == At(PlanTier2) && s.plan == [EVENT_LOGS, "windows_pslist"] && s.index == 2
            && NeverRaises(s.evidence) && HasDetail(s.evidence)
  {
    hide AfterVerify, AfterPlan, AfterCollect, AfterTier2, AfterAssess, AfterRender, PastVerification, InitialNames,
         CustomNames, Sliceable, Answers, After, Window;
    var plan := [EVENT_LOGS, "windows_pslist"];
    assert plan[0] != plan[1] by { assert |plan[1]| == 14 && |plan[0]| == 18; }
    StartOfRun(req, cfg, t);
    StepOfConstant(req, cfg, t, 0);
    StepOfConstant(req, cfg, t, 1);
    StepOfConstant(req, cfg, t, 2);
    StepOfConstant(req, cfg, t, 3);
    VerificationSucceeds(req, cfg, t, Null);
    var s1 := AfterVerify(req, cfg, START, t);
    PastVerificationMeans(s1);
    PlanIsTaken(req, cfg, s1, t, plan);
    var s2 := AfterPlan(req, cfg, s1, t);
    EventLogsCollected(req, cfg, s2, t);
    CollectFrame(req, cfg, s2, t);
    var s3 := AfterCollect(req, cfg, s2, t);
    OneToolCollected(req, cfg, s3, t, Null);
    CollectFrame(req, cfg, s3, t);
    var s4 := AfterCollect(req, cfg, s3, t);
    assert s4.evidence[1] == s3.evidence[1];
  }

  /** Tier-2 planning takes a candidate that was not collected yet, and collecting goes on. */
  lemma Tier2Takes(req: Request, cfg: Settings, s: State, t: Turn, tool: string)
    requires s.index == |s.plan| && Fit(s.evidence, cfg.maxEvidenceChars).Ok? && t.tier2 == Proposed([Step(tool)])
    requires tool in Tier2Names(req) && tool !in ToolsOf(s.evidence)
    ensures var s' := AfterTier2(req, cfg, s, t);
            && s'.phase == At(Collect) && s'.plan == s.plan + [tool] && s'.index == s.index && s'.tier2Planned
            && s'.evidence == s.evidence
  {
    hide Fit, Tier2Names, SelectedTier2, ToolsOf;
    ShownWasCollected(s.evidence, cfg.maxEvidenceChars);
    OneProposalIsTaken(tool, Tier2Names(req), Fit(s.evidence, cfg.maxEvidenceChars).value);
  }

  /** With a single step too, once a tier-2 artifact is offered: it comes after the event logs. */
  lemma OneStepRunRepeatsIds(req: Request, cfg: Settings, tool: string) returns (env: nat -> Turn)
    requires req.platform == Windows && req.range.from <= req.range.to && cfg.maxSteps >= 1 && tool in Tier2Names(req)
    ensures var s := After(req, cfg, env, 7);
            s.phase == Finished && HasDetail(s.evidence) && !NoRepeats(Ids(s.evidence))
  {
    hide After, HasDetail, NeverRaises, Ids, Tier2Names;
    var plan := [EVENT_LOGS];
    var t := Helpful(req.clientId, Null, plan, Proposed([Step(tool)]), Expanded([Object(Window(req.range))]));
    HelpfulAnswers(req.clientId, Null, plan, Proposed([Step(tool)]), Expanded([Object(Window(req.range))]));
    env := Always(t);
    EventLogsAlone(req, cfg, t);
    ThenTier2(req, cfg, t, tool);
    FinishesFromAssess(req, cfg, t, 5);
    IdsDistinctExactlyWhen(req, cfg, env, 7);
    Tier2IsNoEventLog(req, tool);
  }

  lemma Tier2IsNoEventLog(req: Request, tool: string)
    requires tool in Tier2Names(req)
    ensures tool != EVENT_LOGS && tool != EVENT_LOGS_DETAIL
  {
    CandidatesAreCustom(req, tool);
    assert EVENT_LOGS[0] == 'w' && EVENT_LOGS_DETAIL[0] == 'w' && CUSTOM_PREFIX[0] == 'c';
  }

  lemma EventLogsAlone(req: Request, cfg: Settings, t: Turn)
    requires req.platform == Windows && req.range.from <= req.range.to && cfg.maxSteps >= 1
    requires Answers(t, req.clientId, Null) && t.expansions == Expanded([Object(Window(req.range))])
    requires t.plan == Some([EVENT_LOGS])
    ensures var s := After(req, cfg, Always(t), 3);
            && s.phase == At(PlanTier2) && s.plan == [EVENT_LOGS] && s.index == 1 && NeverRaises(s.evidence)
            && |s.evidence| == 2 && s.evidence[0].tool == EVENT_LOGS && s.evidence[1].tool == EVENT_LOGS_DETAIL
  {
    hide AfterVerify, AfterPlan, AfterCollect, AfterTier2, AfterAssess, AfterRender, PastVerification, InitialNames,
         Sliceable, Answers, After, Window;
    StartOfRun(req, cfg, t);
    StepOfConstant(req, cfg, t, 0);
    StepOfConstant(req, cfg, t, 1);
    StepOfConstant(req, cfg, t, 2);
    VerificationSucceeds(req, cfg, t, Null);
    var s1 := AfterVerify(req, cfg, START, t);
    PastVerificationMeans(s1);
    PlanIsTaken(req, cfg, s1, t, [EVENT_LOGS]);
    var s2 := AfterPlan(req, cfg, s1, t);
    EventLogsCollected(req, cfg, s2, t);
    CollectFrame(req, cfg, s2, t);
  }

  lemma ThenTier2(req: Request, cfg: Settings, t: Turn, tool: string)
    requires var s := After(req, cfg, Always(t), 3);
             && s.phase == At(PlanTier2) && s.plan == [EVENT_LOGS] && s.index == 1 && NeverRaises(s.evidence)
             && |s.evidence| == 2 && s.evidence[0].tool == EVENT_LOGS && s.evidence[1].tool == EVENT_LOGS_DETAIL
    requires Answers(t, req.clientId, Null) && tool in Tier2Names(req) && t.tier2 == Proposed([Step(tool)])
    ensures var s := After(req, cfg, Always(t), 5);
            && s.phase == At(Assess) && s.plan == [EVENT_LOGS, tool] && NeverRaises(s.evidence) && HasDetail(s.evidence)
  {
    hide AfterVerify, AfterPlan, AfterCollect, AfterTier2, AfterAssess, AfterRender, Tier2Names, CustomNames, Sliceable,
         Answers, After, Fit;
    var s3 := After(req, cfg, Always(t), 3);
    AlwaysFits(s3.evidence, cfg.maxEvidenceChars);
    Tier2IsNoEventLog(req, tool);
    Tier2Takes(req, cfg, s3, t, tool);
    StepOfConstant(req, cfg, t, 3);
    var s4 := AfterTier2(req, cfg, s3, t);
    OneToolCollected(req, cfg, s4, t, Null);
    CollectFrame(req, cfg, s4, t);
    StepOfConstant(req, cfg, t, 4);
    assert AfterCollect(req, cfg, s4, t).evidence[1] == s3.evidence[1];
  }

  lemma LaterStepsAreTier2(req: Request, cfg: Settings, s: State)
    requires PlanBounded(req, cfg, s) && |s.plan| > s.initial
    ensures Tier2Names(req) != {}
  {
    assert s.plan[s.initial] in Tier2Names(req);
  }

  /** Details come from the event-log step, which only a Windows plan has. */
  lemma DetailsNeedEventLogs(req: Request, cfg: Settings, env: nat -> Turn, n: nat)
    requires cfg.maxSteps >= 1 && After(req, cfg, env, n).phase == Finished
    requires HasDetail(After(req, cfg, env, n).evidence)
    ensures req.platform == Windows
    ensures cfg.maxSteps == 1 && Tier2Names(req) == {} ==> After(req, cfg, env, n).plan == [EVENT_LOGS]
  {
    hide After, HasDetail, Numbered, Visited, ToolsOf, InitialNames, Tier2Names;
    ShapeAlways(req, cfg, env, n);
    LayoutAlways(req, cfg, env, n);
    var s := After(req, cfg, env, n);
    var p, d :| DetailedAt(s, p, d);
    PlanToolIsAllowed(req, cfg, s, p);
    assert EVENT_LOGS[0] == 'w' && CUSTOM_PREFIX[0] == 'c';
    if |s.plan| > s.initial {
      LaterStepsAreTier2(req, cfg, s);
    }
  }

  /**
   * A caller's check: every finished run of the request has pairwise different evidence ids, whatever the
   * models and the bridge answer, exactly when the target is not Windows or nothing can follow the event logs.
   */
  lemma IdsNeverRepeatExactlyWhen(req: Request, cfg: Settings)
    requires cfg.maxSteps >= 1 && req.range.from <= req.range.to
    ensures (forall env: nat -> Turn, n: nat ::
               After(req, cfg, env, n).phase == Finished ==> NoRepeats(Ids(After(req, cfg, env, n).evidence))) <==>
            req.platform != Windows || (cfg.maxSteps == 1 && Tier2Names(req) == {})
  {
    hide After, Tier2Names, Ids, NoRepeats, HasDetail;
    if req.platform != Windows || (cfg.maxSteps == 1 && Tier2Names(req) == {}) {
      forall env: nat -> Turn, n: nat | After(req, cfg, env, n).phase == Finished
        ensures NoRepeats(Ids(After(req, cfg, env, n).evidence))
      {
        IdsDistinctExactlyWhen(req, cfg, env, n);
        if HasDetail(After(req, cfg, env, n).evidence) {
          DetailsNeedEventLogs(req, cfg, env, n);
        }
      }
    } else if cfg.maxSteps >= 2 {
      var env := FinishedRunRepeatsIds(req, cfg);
      assert After(req, cfg, env, 7).phase == Finished;
    } else {
      var tool :| tool in Tier2Names(req);
      var env := OneStepRunRepeatsIds(req, cfg, tool);
      assert After(req, cfg, env, 7).phase == Finished;
    }
  }

  // ----- a plan that names a tool twice -----

  /** A page description longer than any given budget. */
  function LongPage(n: nat): Json {
    Obj([Field("next", Str(seq(n, _ => 'a')))])
  }

  lemma {:induction false} EscapedIsNoShorter(s: string)
    ensures |EscapedText(s)| >= |s|
  {
    if s != "" {
      EscapedIsNoShorter(s[..|s| - 1]);
    }
  }

  lemma LongPageIsLong(n: nat)
    ensures |Dump(LongPage(n))| > n
  {
    var text := seq(n, _ => 'a');
    EscapedIsNoShorter(text);
    var fields := [Field("next", Str(text))];
    FieldsHoldValue(fields, 0);
    assert |Dump(Str(text))| == |EscapedText(text)| + 2;
    assert Dump(Obj(fields)) == "{" + DumpFields(fields) + "}";
  }

  /** What the request offers in both tiers it also signs. */
  lemma BothTiersAreSigned(req: Request, tool: string)
    requires tool in InitialNames(req) && tool in Tier2Names(req)
    ensures tool in CustomNames(req) && CUSTOM_PREFIX <= tool
  {
    CandidatesAreCustom(req, tool);
    if !HasTier(req, 2) {
      TablesAreApart(req.platform);
    }
  }

  lemma TablesAreApart(platform: Platform)
    ensures Tier1Table(platform) !! Tier2Table(platform)
  {
    assert |Prefixed("Custom.DFIR.Windows.Triage")| == 33 && |Prefixed("Custom.DFIR.Linux.Triage")| == 31;
    assert |Prefixed("Custom.DFIR.Windows.Execution")| == 36 && |Prefixed("Custom.DFIR.Windows.Persistence")| == 38;
    assert |Prefixed("Custom.DFIR.Linux.Persistence")| == 36 && |Prefixed("Custom.DFIR.Linux.SSH")| == 28;
  }

  /** A tool offered in both tiers can run twice under every budget: its page description pushes its evidence out. */
  lemma PlanRepeatsTool(req: Request, cfg: Settings, tool: string) returns (env: nat -> Turn)
    requires cfg.maxSteps >= 1 && tool in InitialNames(req) && tool in Tier2Names(req)
    ensures After(req, cfg, env, 4).plan == [tool, tool]
  {
    hide After, InitialNames, Tier2Names, CustomNames, LongPage;
    var page := LongPage(if cfg.maxEvidenceChars > 0 then cfg.maxEvidenceChars else 0);
    PageIsObject(if cfg.maxEvidenceChars > 0 then cfg.maxEvidenceChars else 0);
    LongPageIsLong(if cfg.maxEvidenceChars > 0 then cfg.maxEvidenceChars else 0);
    var t := Helpful(req.clientId, page, [tool], Proposed([Step(tool)]), NoExpansionPlanner);
    HelpfulAnswers(req.clientId, page, [tool], Proposed([Step(tool)]), NoExpansionPlanner);
    BothTiersAreSigned(req, tool);
    assert tool != EVENT_LOGS by { assert EVENT_LOGS[0] == 'w' && CUSTOM_PREFIX[0] == 'c'; }
    OneStepRun(req, cfg, tool, t, page);
    env := Always(t);
    RepeatsAfterDrop(req, cfg, After(req, cfg, env, 3), t, tool);
    StepOfConstant(req, cfg, t, 3);
    NextAtTier2(req, cfg, After(req, cfg, env, 3), t);
  }

  lemma PageIsObject(n: nat)
    ensures LongPage(n).Obj?
  {
  }

  lemma NextAtTier2(req: Request, cfg: Settings, s: State, t: Turn)
    requires Ready(s) && s.phase == At(PlanTier2)
    ensures Next(req, cfg, s, t) == AfterTier2(req, cfg, s, t)
  {
    hide AfterTier2;
  }

  lemma RepeatsAfterDrop(req: Request, cfg: Settings, s: State, t: Turn, tool: string)
    requires tool in Tier2Names(req) && t.tier2 == Proposed([Step(tool)])
    requires s.plan == [tool] && |s.evidence| == 1 && NeverRaises(s.evidence) && s.evidence[0].tool == tool
    requires |Dump(s.evidence[0].pagination)| > cfg.maxEvidenceChars
    ensures AfterTier2(req, cfg, s, t).plan == [tool, tool]
  {
    hide Fit, Tier2Names, NeverRaises, Dump, AfterTier2;
    assert s.evidence == [s.evidence[0]];
    AlwaysFits(s.evidence, cfg.maxEvidenceChars);
    TooLongIsDropped(s.evidence[0], cfg.maxEvidenceChars);
    assert s.evidence[0] in s.evidence;
    assert tool in s.plan;
    AnswerRepeats(req, cfg, s, t, tool);
    assert s.plan + [tool] == [tool, tool];
  }

  /**
   * A caller's check: no run of the request ever plans a tool twice, whatever the models and the bridge
   * answer, exactly when no artifact is offered both initially and as tier 2.
   */
  lemma PlansNeverRepeatExactlyWhen(req: Request, cfg: Settings)
    requires cfg.maxSteps >= 1
    ensures (forall env: nat -> Turn, n: nat :: NoRepeats(After(req, cfg, env, n).plan)) <==>
            InitialNames(req) !! Tier2Names(req)
  {
    hide After, InitialNames, Tier2Names, Repeatable;
    if InitialNames(req) !! Tier2Names(req) {
      forall env: nat -> Turn, n: nat ensures NoRepeats(After(req, cfg, env, n).plan) {
        if !NoRepeats(After(req, cfg, env, n).plan) {
          var m, tool := ToolRepeatsOnlyWhenItsEvidenceWasDropped(req, cfg, env, n);
          assert false;
        }
      }
    } else {
      var tool :| tool in InitialNames(req) && tool in Tier2Names(req);
      var env := PlanRepeatsTool(req, cfg, tool);
      assert After(req, cfg, env, 4).plan[0] == After(req, cfg, env, 4).plan[1];
    }
  }

  /** One artifact is enough: the triage artifact signed as tier 2 is offered in both tiers. */
  lemma TriageSignedAsTier2(req: Request, cfg: Settings) returns (env: nat -> Turn)
    requires req.platform == Windows && cfg.maxSteps >= 1
    requires req.artifacts == [ArtifactRef("Custom.DFIR.Windows.Triage", 2, {Windows})]
    ensures var tool := Prefixed("Custom.DFIR.Windows.Triage"); After(req, cfg, env, 4).plan == [tool, tool]
  {
    hide After;
    var ref := ArtifactRef("Custom.DFIR.Windows.Triage", 2, {Windows});
    assert forall other :: other in req.artifacts ==> other == ref;
    assert ref in req.artifacts;
    env := PlanRepeatsTool(req, cfg, ToolName(ref));
  }

  // ----- a run on which fitting raises -----

  /** Among data that can be logged, exactly this cannot be sliced. */
  lemma LoggedUnsliceableExactlyWhen(item: Item)
    requires Loggable(item.data)
    ensures !Sliceable(item) <==>
            WasTruncated(item.data) &&
            var mark, preview := Get(item.data, "truncated", Null), Get(item.data, "preview", Str(""));
            || (preview.Obj? && preview.fields != [])
            || (mark != Bool(true) && (preview.Num? || preview.Bool?) && Truthy(preview))
  {
    hide Get;
  }

  /** Small data marked as truncated, with a dict as preview. */
  const DICT_PREVIEW := Obj([Field("truncated", Bool(true)), Field("preview", Obj([Field("rows", Bool(true))]))])

  lemma {:induction false} EscapedIsBounded(s: string)
    ensures |EscapedText(s)| <= 6 * |s|
  {
    if s != "" {
      EscapedIsBounded(s[..|s| - 1]);
    }
  }

  lemma DictPreviewIsShort()
    ensures |Dump(DICT_PREVIEW)| <= 150
  {
    EscapedIsBounded("truncated");
    EscapedIsBounded("preview");
    EscapedIsBounded("rows");
    assert |"truncated"| == 9 && |"preview"| == 7 && |"rows"| == 4;
    var inner := [Field("rows", Bool(true))];
    assert |Dump(Obj(inner))| <= 34;
    var rest := [Field("preview", Obj(inner))];
    assert DICT_PREVIEW.fields[1..] == rest;
    assert |DumpFields(rest)| <= 80;
    assert DumpFields(DICT_PREVIEW.fields) == Quoted("truncated") + ": " + Dump(Bool(true)) + ", " + DumpFields(rest);
  }

  lemma DictPreviewFields()
    ensures Get(DICT_PREVIEW, "truncated", Null) == Bool(true) && Loggable(DICT_PREVIEW)
    ensures Get(DICT_PREVIEW, "preview", Str("")) == Obj([Field("rows", Bool(true))])
  {
    assert "truncated"[0] == 't' && "preview"[0] == 'p';
    LookupFinds(DICT_PREVIEW.fields, "truncated", Null, 0);
    LookupFinds(DICT_PREVIEW.fields, "preview", Str(""), 1);
  }

  function DictTurn(page: Json): Turn {
    Turn(_ => "", _ => Wire(Listed(OFFERED), Answer(Envelope(true, DICT_PREVIEW, page))),
         Some(["windows_pslist"]), NoTier2Planner, NoExpansionPlanner, None)
  }

  /** The target is verified, then every tool answers with that data. */
  function DictRun(client: string, page: Json): nat -> Turn {
    n => if n == 0 then Helpful(client, Null, [], NoProposal, NoExpansionPlanner) else DictTurn(page)
  }

  /** A fixed helper's answer that needs no cut and can be logged is returned. */
  lemma HelperAnswered(req: Request, cfg: Settings, session: Session, tool: string, wire: Wire, answer: Envelope)
    requires session.tools == Some(OFFERED) && tool in OFFERED && tool in WINDOWS_TOOLS && tool != EVENT_LOGS
    requires wire.reply == Answer(answer) && |Dump(answer.data)| <= cfg.maxToolResultChars && Loggable(answer.data)
    ensures Collected(session, cfg, tool, req.clientId, OrElse(req.orgId, cfg.orgId), req.range, 50, 0,
                      CustomNames(req), wire).1 == Returned(answer)
  {
    WindowsToolsAreNotCustom(tool);
    hide Loggable, StaticArguments, CustomNames, Dump;
  }

  lemma ProcessListIsOffered()
    ensures "windows_pslist" in WINDOWS_TOOLS && "windows_pslist" in OFFERED && "windows_pslist" != EVENT_LOGS
  {
    assert |"windows_pslist"| == 14 && |EVENT_LOGS| == 18;
  }

  lemma DictCollected(req: Request, cfg: Settings, s: State, page: Json)
    requires s.index < |s.plan| && s.plan[s.index] == "windows_pslist" && s.session.tools == Some(OFFERED)
    requires page.Obj? && cfg.maxToolResultChars >= 150
    ensures var s' := AfterCollect(req, cfg, s, DictTurn(page));
            && s'.evidence == s.evidence + [s'.evidence[|s.evidence|]]
            && s'.evidence[|s.evidence|].data == DICT_PREVIEW && s'.evidence[|s.evidence|].pagination == page
  {
    DictPreviewFields();
    DictPreviewIsShort();
    ProcessListIsOffered();
    var answer := Envelope(true, DICT_PREVIEW, page);
    assert DictTurn(page).wire(0).reply == Answer(answer);
    hide Collected, CustomNames, EvidenceId, DictTurn, AfterEventLogs, Loggable, Dump;
    HelperAnswered(req, cfg, s.session, s.plan[s.index], DictTurn(page).wire(0), answer);
  }

  lemma DictItemRaises(item: Item, maxChars: int)
    requires item.data == DICT_PREVIEW && |Dump(item.pagination)| > maxChars > 0
    ensures Fit([item], maxChars) == Err("preview cannot be sliced")
  {
    DictPreviewFields();
    PaginationCounts(item, maxChars);
    PaginationCounts(item.(data := Stub(Get(item.data, "preview", Str("")))), maxChars);
    hide Fits, Get, Dump;
    assert [item][..0] == [] && [] + [item] == [item];
    assert FirstPass([], maxChars) == Ok([]);
    assert [] + [item.(data := Stub(Get(item.data, "preview", Str(""))))] ==
           [item.(data := Stub(Get(item.data, "preview", Str(""))))];
    assert Shrink([], item, maxChars) == Err("preview cannot be sliced");
  }

  lemma DictRunCollects(req: Request, cfg: Settings, page: Json)
    requires req.platform == Windows && cfg.maxSteps >= 1 && cfg.maxToolResultChars >= 150 && page.Obj?
    ensures var s := After(req, cfg, DictRun(req.clientId, page), 3);
            s.phase == At(PlanTier2) && |s.evidence| == 1
            && s.evidence[0].data == DICT_PREVIEW && s.evidence[0].pagination == page
  {
    hide After, AfterVerify, AfterPlan, AfterCollect, AfterTier2, AfterAssess, AfterRender, PastVerification,
         InitialNames;
    var env, t := DictRun(req.clientId, page), DictTurn(page);
    DictRunBegins(req, cfg, page);
    var s1 := After(req, cfg, env, 1);
    PastVerificationMeans(s1);
    StepOf(req, cfg, env, 1);
    PlanIsTaken(req, cfg, s1, t, ["windows_pslist"]);
    var s2 := AfterPlan(req, cfg, s1, t);
    StepOf(req, cfg, env, 2);
    DictCollected(req, cfg, s2, page);
    CollectFrame(req, cfg, s2, t);
  }

  /** On every Windows target, for every budget, some run fails because fitting its evidence raises. */
  lemma RunFailsFitting(req: Request, cfg: Settings) returns (env: nat -> Turn)
    requires req.platform == Windows && cfg.maxSteps >= 1 && cfg.maxEvidenceChars > 0 && cfg.maxToolResultChars >= 150
    ensures After(req, cfg, env, 4).phase == Failed("preview cannot be sliced")
  {
    hide After, AfterTier2, LongPage, Fit, Dump;
    var page := LongPage(cfg.maxEvidenceChars);
    LongPageIsLong(cfg.maxEvidenceChars);
    PageIsObject(cfg.maxEvidenceChars);
    env := DictRun(req.clientId, page);
    DictRunCollects(req, cfg, page);
    var s := After(req, cfg, env, 3);
    StepOf(req, cfg, env, 3);
    NextAtTier2(req, cfg, s, env(3));
    assert s.evidence == [s.evidence[0]];
    DictItemRaises(s.evidence[0], cfg.maxEvidenceChars);
    FailsAtTier2(req, cfg, s, env(3));
  }

  lemma StepOf(req: Request, cfg: Settings, env: nat -> Turn, n: nat)
    ensures After(req, cfg, env, n + 1) == Next(req, cfg, After(req, cfg, env, n), env(n))
  {
    hide Next;
  }

  lemma DictRunBegins(req: Request, cfg: Settings, page: Json)
    ensures PastVerification(After(req, cfg, DictRun(req.clientId, page), 1))
  {
    hide AfterVerify, PastVerification, AfterPlan, AfterCollect, AfterTier2, AfterAssess, AfterRender;
    var env := DictRun(req.clientId, page);
    HelpfulAnswers(req.clientId, Null, [], NoProposal, NoExpansionPlanner);
    VerificationSucceeds(req, cfg, env(0), Null);
    StepOf(req, cfg, env, 0);
    assert After(req, cfg, env, 0) == START;
  }

  lemma FailsAtTier2(req: Request, cfg: Settings, s: State, t: Turn)
    requires Fit(s.evidence, cfg.maxEvidenceChars).Err?
    ensures AfterTier2(req, cfg, s, t).phase == Failed(Fit(s.evidence, cfg.maxEvidenceChars).exception)
  {
    hide Fit;
  }
}
