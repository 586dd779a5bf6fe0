/** What holds over whole investigation runs, for every planner, bridge and clock. */
module Runs {
  import opened Common
  import opened Catalog
  import opened EvidenceBudget
  import opened Planning
  import opened Sequences
  import opened Expansions
  import opened Bridge
  import opened Workflow

  // ----- route and length -----

  function Times(node: Node, k: nat): seq<Node> {
    seq(k, _ => node)
  }

  /** The visits of a run that finished collecting i of its steps, n of them planned initially. */
  function Visited(n: nat, i: nat, tier2: bool): seq<Node> {
    [VerifyTarget, MakePlan] +
    if tier2 then Times(Collect, n) + [PlanTier2] + Times(Collect, if i < n then 0 else i - n) else Times(Collect, i)
  }

  ghost predicate PlanBounded(req: Request, cfg: Settings, s: State) {
    && 1 <= s.initial <= InitialLimit(cfg)
    && s.initial <= |s.plan| <= s.initial + (if s.tier2Planned then MAX_TIER2_STEPS else 0)
    && s.index <= |s.plan|
    && (s.tier2Planned ==> s.initial <= s.index)
    && NoRepeats(s.plan[..s.initial]) && NoRepeats(s.plan[s.initial..])
    && (forall k :: 0 <= k < s.initial ==> s.plan[k] in StaticTools(req.platform) + InitialNames(req))
    && (forall k :: s.initial <= k < |s.plan| ==> s.plan[k] in Tier2Names(req))
  }

  ghost predicate Shape(req: Request, cfg: Settings, s: State) {
    match s.phase
    case At(VerifyTarget) => s == START
    case At(MakePlan) => s.visits == [VerifyTarget] && s.plan == [] && s.evidence == [] && s.index == 0 &&
        !s.tier2Planned
    case Failed(_) => |s.visits| <= InitialLimit(cfg) + MAX_TIER2_STEPS + 5
    case _ =>
      && PlanBounded(req, cfg, s)
      && match s.phase
         case At(Collect) => s.index < |s.plan| && s.visits == Visited(s.initial, s.index, s.tier2Planned)
         case At(PlanTier2) => s.index == |s.plan| && !s.tier2Planned && s.visits == Visited(s.initial, s.index, false)
         case At(Assess) => s.index == |s.plan| && s.tier2Planned && s.visits == Visited(s.initial, s.index, true)
         case At(RenderReport) =>
           s.index == |s.plan| && s.tier2Planned && s.visits == Visited(s.initial, s.index, true) + [Assess]
         case _ =>
           s.index == |s.plan| && s.tier2Planned &&
               s.visits == Visited(s.initial, s.index, true) + [Assess, RenderReport]
  }

  lemma OneMoreCollect(n: nat, i: nat, tier2: bool)
    requires tier2 ==> n <= i
    ensures Visited(n, i + 1, tier2) == Visited(n, i, tier2) + [Collect]
    ensures !tier2 && i == n ==> Visited(n, i, true) == Visited(n, i, false) + [PlanTier2]
  {
  }

  lemma ShapeAfterPlan(req: Request, cfg: Settings, s: State, t: Turn)
    requires cfg.maxSteps >= 1 && s.phase == At(MakePlan) && Shape(req, cfg, s)
    ensures Shape(req, cfg, AfterPlan(req, cfg, s, t))
  {
    if t.plan.Some? {
      SanitizedIsBounded(t.plan.value, InitialLimit(cfg), InitialNames(req), req.platform);
      var s' := AfterPlan(req, cfg, s, t);
      if s'.phase == At(Collect) {
        assert s'.plan[..s'.initial] == s'.plan;
        assert s'.visits == Visited(s'.initial, 0, false);
      }
    }
  }

  lemma ShapeAfterTier2(req: Request, cfg: Settings, s: State, t: Turn)
    requires s.phase == At(PlanTier2) && Shape(req, cfg, s)
    ensures Shape(req, cfg, AfterTier2(req, cfg, s, t))
  {
    hide Fit, SelectedTier2, Tier2Names, InitialNames, ToolsOf;
    var s' := AfterTier2(req, cfg, s, t);
    OneMoreCollect(s.initial, s.index, false);
    if s'.plan != s.plan {
      var shown := Fit(s.evidence, cfg.maxEvidenceChars).value;
      var accepted := SelectedTier2(t.tier2.proposals, Tier2Names(req), shown);
      SelectedIsBounded(t.tier2.proposals, Tier2Names(req), shown);
      assert s'.plan == s.plan + accepted;
      assert s'.plan[..s.initial] == s.plan[..s.initial] && s'.plan[s.initial..] == accepted;
      forall k | s.initial <= k < |s'.plan| ensures s'.plan[k] in Tier2Names(req) {
        assert s'.plan[k] == accepted[k - s.initial] && s'.plan[k] in accepted;
      }
    }
  }

  /** Collecting changes only the session, the evidence, the limitations and the index. */
  lemma CollectFrame(req: Request, cfg: Settings, s: State, t: Turn)
    requires s.index < |s.plan|
    ensures var s' := AfterCollect(req, cfg, s, t);
            && s' == s.(session := s'.session, evidence := s'.evidence, limitations := s'.limitations,
                        index := s.index + 1, visits := s.visits + [Collect], phase := s'.phase)
            && s'.phase == Route(s')
  {
    hide Collected, Triaged, Details, Accepted, Rejections;
  }

  lemma ShapeAfterCollect(req: Request, cfg: Settings, s: State, t: Turn)
    requires s.phase == At(Collect) && Shape(req, cfg, s)
    ensures Shape(req, cfg, AfterCollect(req, cfg, s, t))
  {
    hide AfterCollect;
    CollectFrame(req, cfg, s, t);
    OneMoreCollect(s.initial, s.index, s.tier2Planned);
  }

  lemma ShapeAfterVerify(req: Request, cfg: Settings, s: State, t: Turn)
    requires s.phase == At(VerifyTarget) && Shape(req, cfg, s)
    ensures Shape(req, cfg, AfterVerify(req, cfg, s, t))
  {
    hide Verified;
  }

  lemma ShapeAfterAssess(req: Request, cfg: Settings, s: State, t: Turn)
    requires s.phase == At(Assess) && Shape(req, cfg, s)
    ensures Shape(req, cfg, AfterAssess(cfg, s, t))
  {
    hide Fit, Validated;
  }

  lemma ShapeAfterRender(req: Request, cfg: Settings, s: State)
    requires s.phase == At(RenderReport) && Shape(req, cfg, s) && Ready(s)
    ensures Shape(req, cfg, AfterRender(cfg, s))
  {
    hide Fit;
  }

  lemma {:induction false} ShapeAlways(req: Request, cfg: Settings, env: nat -> Turn, n: nat)
    requires cfg.maxSteps >= 1
    ensures Shape(req, cfg, After(req, cfg, env, n))
  {
    hide AfterVerify, AfterPlan, AfterCollect, AfterTier2, AfterAssess, AfterRender, PlanBounded, Visited;
    if n > 0 {
      ShapeAlways(req, cfg, env, n - 1);
      var s, t := After(req, cfg, env, n - 1), env(n - 1);
      match s.phase
      case At(VerifyTarget) => ShapeAfterVerify(req, cfg, s, t);
      case At(MakePlan) => ShapeAfterPlan(req, cfg, s, t);
      case At(Collect) => ShapeAfterCollect(req, cfg, s, t);
      case At(PlanTier2) => ShapeAfterTier2(req, cfg, s, t);
      case At(Assess) => ShapeAfterAssess(req, cfg, s, t);
      case At(RenderReport) => ShapeAfterRender(req, cfg, s);
      case _ =>
    }
  }

  predicate Ended(s: State) {
    s.phase.Finished? || s.phase.Failed?
  }

  lemma NextIsOneVisit(req: Request, cfg: Settings, s: State, t: Turn)
    requires Ready(s)
    ensures var s' := Next(req, cfg, s, t);
            if Ended(s) then s' == s else s'.visits == s.visits + [s.phase.node]
  {
    hide Verified, Sanitized, AfterCollect, Fit, Validated, SelectedTier2, Tier2Names, InitialNames, Route;
    if s.phase == At(Collect) {
      CollectFrame(req, cfg, s, t);
    }
  }

  /** While a run goes on, each step is one visit. */
  lemma {:induction false} OneVisitPerStep(req: Request, cfg: Settings, env: nat -> Turn, n: nat)
    ensures var s := After(req, cfg, env, n);
            |s.visits| <= n && (!Ended(s) ==> |s.visits| == n)
  {
    hide Next;
    if n > 0 {
      OneVisitPerStep(req, cfg, env, n - 1);
      NextIsOneVisit(req, cfg, After(req, cfg, env, n - 1), env(n - 1));
    }
  }

  lemma RunningMeansShort(req: Request, cfg: Settings, env: nat -> Turn, n: nat)
    requires cfg.maxSteps >= 1 && !Ended(After(req, cfg, env, n))
    ensures n < InitialLimit(cfg) + 7
  {
    hide After;
    ShapeAlways(req, cfg, env, n);
    OneVisitPerStep(req, cfg, env, n);
  }

  /** Every run ends, within max_steps + 7 visits and so before the recursion limit of max_steps + 8. */
  lemma EveryRunEnds(req: Request, cfg: Settings, env: nat -> Turn)
    requires cfg.maxSteps >= 1
    ensures Ended(After(req, cfg, env, InitialLimit(cfg) + 7))
    ensures InitialLimit(cfg) + 7 < cfg.maxSteps + 8
  {
    hide After;
    if !Ended(After(req, cfg, env, InitialLimit(cfg) + 7)) {
      RunningMeansShort(req, cfg, env, InitialLimit(cfg) + 7);
    }
  }

  /** Running the compiled graph: the recursion limit is never hit, and the end state is the state machine's. */
  method RunGraph(req: Request, mcp: VelociraptorAdapter, env: nat -> Turn, recursionLimit: nat)
    returns (s: State, steps: nat, recursionError: bool)
    requires mcp.settings.maxSteps >= 1 && recursionLimit == mcp.settings.maxSteps + 8
    requires mcp.View() == Session(None, [])
    modifies mcp
    ensures !recursionError
    ensures steps < recursionLimit
    ensures s == After(req, mcp.settings, env, steps) && Ended(s)
    ensures mcp.View() == s.session
  {
    hide Next;
    var cfg := mcp.settings;
    s, steps, recursionError := START, 0, false;
    while !Ended(s)
      invariant s == After(req, cfg, env, steps) && mcp.View() == s.session
      invariant steps <= InitialLimit(cfg) + 7
      decreases recursionLimit - steps
    {
      RunningMeansShort(req, cfg, env, steps);
      if steps >= recursionLimit {
        recursionError := true;
        return;
      }
      s := RunNode(req, mcp, s, env(steps));
      steps := steps + 1;
    }
  }

  method RunNode(req: Request, mcp: VelociraptorAdapter, s: State, t: Turn) returns (s': State)
    requires mcp.settings.maxSteps >= 1 && Ready(s) && !Ended(s) && mcp.View() == s.session
    modifies mcp
    ensures s' == Next(req, mcp.settings, s, t) && mcp.View() == s'.session
  {
    hide AfterVerify, AfterCollect, Sanitized, Fit, Validated, SelectedTier2;
    match s.phase.node
    case VerifyTarget => s' := RunVerify(req, mcp, s, t);
    case MakePlan => s' := RunPlan(req, mcp.settings, s, t);
    case Collect => s' := RunCollect(req, mcp, s, t);
    case PlanTier2 => s' := RunTier2(req, mcp.settings, s, t);
    case Assess => s' := RunAssess(mcp.settings, s, t);
    case RenderReport => s' := RunRender(mcp.settings, s);
  }

  /**
   * A finished run visited tier-2 planning exactly once, after all n1 initial steps, and made
   * 5 + n1 + n2 visits in all, with n1 at most min(max_steps, 3) and n2 at most 2.
   */
  lemma FinishedRunRoute(req: Request, cfg: Settings, env: nat -> Turn, n: nat) returns (n1: nat, n2: nat)
    requires cfg.maxSteps >= 1 && After(req, cfg, env, n).phase == Finished
    ensures 1 <= n1 <= InitialLimit(cfg) && n2 <= MAX_TIER2_STEPS
    ensures var s := After(req, cfg, env, n);
            && s.visits == [VerifyTarget, MakePlan] + Times(Collect, n1) + [PlanTier2] + Times(Collect, n2) +
                [Assess, RenderReport]
            && |s.visits| == 5 + n1 + n2 && |s.plan| == n1 + n2
  {
    hide After;
    ShapeAlways(req, cfg, env, n);
    var s := After(req, cfg, env, n);
    n1, n2 := s.initial, |s.plan| - s.initial;
  }

  /** A target with no initial artifact and no fixed tools is never investigated: planning always fails. */
  lemma {:induction false} WithoutToolsNoRunFinishes(req: Request, cfg: Settings, env: nat -> Turn, n: nat)
    requires cfg.maxSteps >= 1 && req.platform != Windows && InitialNames(req) == {}
    ensures var s := After(req, cfg, env, n); s.phase in {At(VerifyTarget), At(MakePlan)} || s.phase.Failed?
  {
    hide Verified, Sanitized, AfterCollect, AfterTier2, AfterAssess, AfterRender, InitialNames;
    if n > 0 {
      WithoutToolsNoRunFinishes(req, cfg, env, n - 1);
      var t := env(n - 1);
      if t.plan.Some? {
        SanitizedEmptyExactlyWhen(t.plan.value, InitialLimit(cfg), InitialNames(req), req.platform);
      }
    }
  }

  lemma MacOSHasNoInitialArtifact(req: Request)
    requires req.platform == MacOS
    ensures InitialNames(req) == {}
  {
  }

  // ----- every call stays inside the request -----

  ghost predicate LegitDetail(req: Request, cfg: Settings, evidence: seq<Item>, call: Call) {
    exists e, k ::
      && 0 <= k < |evidence| && evidence[k].tool == EVENT_LOGS && evidence[k].ok
      && Permitted(e, req.range, SampledIds(evidence[k].data))
      && call == Call(EVENT_LOGS_DETAIL, DetailArguments(req.clientId, EffectiveOrg(req, cfg), e))
  }

  ghost predicate LegitStatic(req: Request, cfg: Settings, call: Call) {
    exists declared: set<string> ::
      && call.tool in WINDOWS_TOOLS && call.tool != EVENT_LOGS
      && call.arguments == StaticArguments(call.tool, declared, req.clientId, EffectiveOrg(req, cfg), req.range, 50, 0)
  }

  ghost predicate LegitCustom(req: Request, cfg: Settings, call: Call) {
    exists tool ::
      && tool in Collectable(req) && CUSTOM_PREFIX <= tool
      && call == Call(COLLECT_CUSTOM, CustomArguments(tool[|CUSTOM_PREFIX|..], req.clientId, EffectiveOrg(req, cfg)))
  }

  /** The only calls a run may make. */
  ghost predicate Legit(req: Request, cfg: Settings, evidence: seq<Item>, call: Call) {
    || call == Call("list_clients", VerifyArguments(req.clientId, EffectiveOrg(req, cfg)))
    || LegitCustom(req, cfg, call)
    || (req.platform == Windows && LegitStatic(req, cfg, call))
    || (req.platform == Windows && LegitDetail(req, cfg, evidence, call))
    || (req.platform == Windows &&
        call == Call(EVENT_LOGS_TRIAGE, TriageArguments(req.clientId, EffectiveOrg(req, cfg), req.range)))
  }

  ghost predicate CallsLegit(req: Request, cfg: Settings, s: State) {
    forall call :: call in s.session.calls ==> Legit(req, cfg, s.evidence, call)
  }

  lemma LegitIsLasting(req: Request, cfg: Settings, evidence: seq<Item>, more: seq<Item>, call: Call)
    requires Legit(req, cfg, evidence, call) && evidence <= more
    ensures Legit(req, cfg, more, call)
  {
    if LegitDetail(req, cfg, evidence, call) {
      var e, k :| && 0 <= k < |evidence| && evidence[k].tool == EVENT_LOGS && evidence[k].ok
                  && Permitted(e, req.range, SampledIds(evidence[k].data))
                  && call == Call(EVENT_LOGS_DETAIL, DetailArguments(req.clientId, EffectiveOrg(req, cfg), e));
      assert more[k] == evidence[k];
      assert LegitDetail(req, cfg, more, call);
    }
  }

  lemma CandidatesAreCustom(req: Request, tool: string)
    requires tool in InitialNames(req) + Tier2Names(req)
    ensures CUSTOM_PREFIX <= tool
  {
    assert forall name: string :: Prefixed(name)[..|CUSTOM_PREFIX|] == CUSTOM_PREFIX;
  }

  lemma PlanToolIsAllowed(req: Request, cfg: Settings, s: State, k: nat)
    requires PlanBounded(req, cfg, s) && k < |s.plan|
    ensures CUSTOM_PREFIX <= s.plan[k] ==> s.plan[k] in InitialNames(req) + Tier2Names(req)
    ensures !(CUSTOM_PREFIX <= s.plan[k]) ==> k < s.initial && req.platform == Windows && s.plan[k] in WINDOWS_TOOLS
  {
    if s.plan[k] in InitialNames(req) + Tier2Names(req) {
      CandidatesAreCustom(req, s.plan[k]);
    } else {
      WindowsToolsAreNotCustom(s.plan[k]);
    }
  }

  /** One tool makes at most one call, and only a legitimate one. */
  lemma OneToolCalls(req: Request, cfg: Settings, s: State, t: Turn)
    requires PlanBounded(req, cfg, s) && s.index < |s.plan|
    ensures var s' := AfterOneTool(req, cfg, s, t);
            && s.evidence <= s'.evidence
            && (s'.session.calls == s.session.calls ||
                exists call :: s'.session.calls == s.session.calls + [call] && Legit(req, cfg, s'.evidence, call))
  {
    hide Collected, CollectedItem, StaticArguments, CustomArguments, EvidenceId, PlanBounded;
    var s' := AfterOneTool(req, cfg, s, t);
    var tool, org := s.plan[s.index], EffectiveOrg(req, cfg);
    PlanToolIsAllowed(req, cfg, s, s.index);
    CollectedCallsAtMostOnce(s.session, cfg, tool, req.clientId, OrElse(req.orgId, cfg.orgId), req.range, 50, 0,
                             CustomNames(req), t.wire(0));
    if s'.session.calls != s.session.calls {
      var call := s'.session.calls[|s.session.calls|];
      if CUSTOM_PREFIX <= tool {
        assert tool in Collectable(req);
        assert LegitCustom(req, cfg, call);
      } else {
        assert LegitStatic(req, cfg, call);
      }
    }
  }

  lemma LegitAfterOneTool(req: Request, cfg: Settings, s: State, t: Turn)
    requires PlanBounded(req, cfg, s) && s.index < |s.plan| && CallsLegit(req, cfg, s)
    ensures CallsLegit(req, cfg, AfterOneTool(req, cfg, s, t))
  {
    hide AfterOneTool, PlanBounded, Legit;
    OneToolCalls(req, cfg, s, t);
    var s' := AfterOneTool(req, cfg, s, t);
    forall call | call in s.session.calls ensures Legit(req, cfg, s'.evidence, call) {
      LegitIsLasting(req, cfg, s.evidence, s'.evidence, call);
    }
  }

  ghost predicate DetailCallFor(req: Request, cfg: Settings, es: seq<Expansion>, call: Call) {
    exists e :: e in es && call == Call(EVENT_LOGS_DETAIL, DetailArguments(req.clientId, EffectiveOrg(req, cfg), e))
  }

  /** The items of the detail stage: one per expansion, numbered on. */
  lemma {:induction false} DetailsItems(req: Request, cfg: Settings, session: Session, index: nat, es: seq<Expansion>,
      t: Turn)
    ensures var items := Details(req, cfg, session, index, es, t).1;
            && |items| == |es|
            && (forall k :: 0 <= k < |items| ==>
                items[k].tool == EVENT_LOGS_DETAIL && items[k].id == EvidenceId(index + 2 + k))
  {
    hide Detailed, EvidenceId;
    if es != [] {
      DetailsItems(req, cfg, session, index, es[..|es| - 1], t);
    }
  }

  /** The calls of the detail stage: those before it and one per expansion at most. */
  lemma {:induction false} DetailsCalls(req: Request, cfg: Settings, session: Session, index: nat, es: seq<Expansion>,
      t: Turn)
    ensures var after := Details(req, cfg, session, index, es, t).0;
            && |after.calls| <= |session.calls| + |es|
            && (forall call :: call in after.calls ==> call in session.calls || DetailCallFor(req, cfg, es, call))
  {
    if es != [] {
      hide Detailed, EvidenceId, EventLogItem, DetailCallFor, DetailArguments;
      var n, init := |es|, es[..|es| - 1];
      DetailsCalls(req, cfg, session, index, init, t);
      var before := Details(req, cfg, session, index, init, t).0;
      DetailedCall(req, cfg, before, es[n - 1], t.wire(n));
      forall call | call in Details(req, cfg, session, index, es, t).0.calls && call !in session.calls
        ensures DetailCallFor(req, cfg, es, call)
      {
        OneMoreDetail(req, cfg, es, call, call in before.calls);
      }
    }
  }

  lemma OneMoreDetail(req: Request, cfg: Settings, es: seq<Expansion>, call: Call, earlier: bool)
    requires es != []
    requires earlier ==> DetailCallFor(req, cfg, es[..|es| - 1], call)
    requires !earlier ==> call == Call(EVENT_LOGS_DETAIL,
        DetailArguments(req.clientId, EffectiveOrg(req, cfg), es[|es| - 1]))
    ensures DetailCallFor(req, cfg, es, call)
  {
    hide DetailArguments, EffectiveOrg;
    if earlier {
      var e :| e in es[..|es| - 1] &&
          call == Call(EVENT_LOGS_DETAIL, DetailArguments(req.clientId, EffectiveOrg(req, cfg), e));
      assert e in es;
    }
  }

  lemma DetailedCall(req: Request, cfg: Settings, session: Session, e: Expansion, wire: Wire)
    ensures var after := Detailed(session, cfg, req.clientId, OrElse(req.orgId, cfg.orgId), e, wire).0;
            after.calls == session.calls ||
            after.calls == session.calls +
                [Call(EVENT_LOGS_DETAIL, DetailArguments(req.clientId, EffectiveOrg(req, cfg), e))]
  {
    hide Summary, DetailArguments;
  }

  lemma LegitAfterEventLogs(req: Request, cfg: Settings, s: State, t: Turn)
    requires req.platform == Windows && CallsLegit(req, cfg, s)
    ensures CallsLegit(req, cfg, AfterEventLogs(req, cfg, s, t))
  {
    hide Summary, EvidenceId, DetailArguments, TriageArguments, Accepted, Rejections, Details;
    var s' := AfterEventLogs(req, cfg, s, t);
    var org := EffectiveOrg(req, cfg);
    var (session, r) := Triaged(s.session, cfg, req.clientId, OrElse(req.orgId, cfg.orgId), req.range, t.wire(0));
    forall call | call in session.calls ensures Legit(req, cfg, s'.evidence, call) {
      if call in s.session.calls {
        LegitIsLasting(req, cfg, s.evidence, s'.evidence, call);
      } else {
        assert call == Call(EVENT_LOGS_TRIAGE, TriageArguments(req.clientId, org, req.range));
      }
    }
    if r.Returned? {
      var sampled := SampledIds(r.value);
      var es := Accepted(RequestedExpansions(sampled, t), req.range, sampled);
      AcceptedArePermitted(RequestedExpansions(sampled, t), req.range, sampled);
      DetailsCalls(req, cfg, session, s.index, es, t);
      var triage := s'.evidence[|s.evidence|];
      assert triage.tool == EVENT_LOGS && triage.ok && triage.data == r.value;
      forall call | call in s'.session.calls && call !in session.calls ensures Legit(req, cfg, s'.evidence, call) {
        var e :| e in es && call == Call(EVENT_LOGS_DETAIL, DetailArguments(req.clientId, org, e));
        assert LegitDetail(req, cfg, s'.evidence, call);
      }
    }
  }

  lemma LegitAfterVerify(req: Request, cfg: Settings, t: Turn)
    ensures CallsLegit(req, cfg, AfterVerify(req, cfg, START, t))
  {
    hide VerifyArguments, FirstNamed, Rows;
  }

  lemma LegitAfterCollect(req: Request, cfg: Settings, s: State, t: Turn)
    requires PlanBounded(req, cfg, s) && s.index < |s.plan| && CallsLegit(req, cfg, s)
    ensures CallsLegit(req, cfg, AfterCollect(req, cfg, s, t))
  {
    hide AfterOneTool, AfterEventLogs, PlanBounded, Legit;
    if s.plan[s.index] == EVENT_LOGS {
      PlanToolIsAllowed(req, cfg, s, s.index);
      assert EVENT_LOGS[0] == 'w' && CUSTOM_PREFIX[0] == 'c';
      LegitAfterEventLogs(req, cfg, s, t);
    } else {
      LegitAfterOneTool(req, cfg, s, t);
    }
  }

  /** Planning and reporting make no call and leave the evidence alone. */
  lemma OtherNodesDoNotCall(req: Request, cfg: Settings, s: State, t: Turn)
    requires Ready(s) && s.phase != At(VerifyTarget) && s.phase != At(Collect)
    ensures var s' := Next(req, cfg, s, t); s'.session == s.session && s'.evidence == s.evidence
  {
    hide Sanitized, Fit, Validated, SelectedTier2, AfterVerify, AfterCollect;
  }

  lemma {:induction false} CallsAlwaysLegit(req: Request, cfg: Settings, env: nat -> Turn, n: nat)
    requires cfg.maxSteps >= 1
    ensures CallsLegit(req, cfg, After(req, cfg, env, n))
  {
    hide AfterVerify, AfterPlan, AfterCollect, AfterTier2, AfterAssess, AfterRender, PlanBounded, Visited, Legit;
    if n > 0 {
      CallsAlwaysLegit(req, cfg, env, n - 1);
      ShapeAlways(req, cfg, env, n - 1);
      var s, t := After(req, cfg, env, n - 1), env(n - 1);
      match s.phase
      case At(VerifyTarget) => LegitAfterVerify(req, cfg, t);
      case At(Collect) => LegitAfterCollect(req, cfg, s, t);
      case _ => OtherNodesDoNotCall(req, cfg, s, t);
    }
  }

  /**
   * In every run, whatever the models propose, every call reaching the bridge names the request's
   * client and organisation and a tool on the platform's fixed list; a fixed helper has its bounded
   * arguments and an artifact is one the request signs and the catalog allows; triage asks for the case
   * range, and a detail for at most an hour inside it and ids that a triage result in the evidence reported.
   * All this is said of the values sent.
   */
  lemma EveryCallIsConfined(req: Request, cfg: Settings, env: nat -> Turn, n: nat, call: Call)
    requires cfg.maxSteps >= 1
    requires call in After(req, cfg, env, n).session.calls
    ensures Confined(req, cfg, After(req, cfg, env, n).evidence, call)
  {
    hide After, Legit, Confined;
    CallsAlwaysLegit(req, cfg, env, n);
    LegitMeansConfined(req, cfg, After(req, cfg, env, n).evidence, call);
  }

  /** All tools that a run may call: on Windows the fixed helpers, but event logs only through their typed helpers. */
  function AllowedTools(platform: Platform): set<string> {
    {"list_clients", COLLECT_CUSTOM} +
    if platform == Windows then (WINDOWS_TOOLS.Keys - {EVENT_LOGS}) + {EVENT_LOGS_TRIAGE, EVENT_LOGS_DETAIL} else {}
  }

  /**
   * A detail call: a forward window of at most an hour inside the case range, at most fifty rows, and ids,
   * read back from their text, that a triage result in the evidence reported.
   */
  ghost predicate ConfinedDetail(req: Request, evidence: seq<Item>, args: map<string, Arg>) {
    && args.Keys == {"client_id", "org_id", "DateAfter", "DateBefore", "max_rows", "event_ids"}
    && args["DateAfter"].Time? && args["DateBefore"].Time? && args["event_ids"].Text?
    && req.range.from <= args["DateAfter"].t <= args["DateBefore"].t <= req.range.to
    && args["DateBefore"].t - args["DateAfter"].t <= HOUR
    && args["max_rows"] == Number(50)
    && exists k, ids :: 0 <= k < |evidence| && IsReported(evidence[k], ids) && IsTextOf(args["event_ids"].s, ids)
  }

  /** The item is a successful triage result that reported these ids. */
  ghost predicate IsReported(item: Item, ids: seq<string>) {
    item.tool == EVENT_LOGS && item.ok && ids != [] && forall id :: id in ids ==> id in SampledIds(item.data)
  }

  /** Split at commas the text gives the ids' pieces, which are the ids themselves if none holds a comma. */
  ghost predicate IsTextOf(text: string, ids: seq<string>) {
    Split(text) == Pieces(ids) && ((forall id :: id in ids ==> ',' !in id) ==> Split(text) == ids)
  }

  ghost predicate Confined(req: Request, cfg: Settings, evidence: seq<Item>, call: Call) {
    var org := OwnOrg(req, cfg);
    && "org_id" in call.arguments && call.arguments["org_id"] == Text(org)
    && (call.tool != "list_clients" ==>
          "client_id" in call.arguments && call.arguments["client_id"] == Text(req.clientId))
    && call.tool in AllowedTools(req.platform)
    && (call.tool == "list_clients" ==> AsksForClient(call, req.clientId, org))
    && (call.tool in WINDOWS_TOOLS ==>
          exists declared: set<string> :: AsksHelper(call, declared, req.clientId, org, req.range, 50, 0))
    && (call.tool == EVENT_LOGS_TRIAGE ==> AsksForTriage(call, req.clientId, org, req.range))
    && (call.tool == COLLECT_CUSTOM ==>
          exists tool :: tool in Collectable(req) && AsksForArtifact(call, req.clientId, org, tool))
    && (call.tool == EVENT_LOGS_DETAIL ==> ConfinedDetail(req, evidence, call.arguments))
  }

  lemma LegitMeansConfined(req: Request, cfg: Settings, evidence: seq<Item>, call: Call)
    requires Legit(req, cfg, evidence, call)
    ensures Confined(req, cfg, evidence, call)
  {
    hide LegitCustom, LegitStatic, LegitDetail, EffectiveOrg, Confined;
    if LegitCustom(req, cfg, call) {
      CustomIsConfined(req, cfg, evidence, call);
    } else if req.platform == Windows && LegitStatic(req, cfg, call) {
      StaticIsConfined(req, cfg, evidence, call);
    } else if req.platform == Windows && LegitDetail(req, cfg, evidence, call) {
      DetailIsConfined(req, cfg, evidence, call);
    } else {
      OwnCallsAreConfined(req, cfg, evidence, call);
    }
  }

  lemma CustomIsConfined(req: Request, cfg: Settings, evidence: seq<Item>, call: Call)
    requires LegitCustom(req, cfg, call)
    ensures Confined(req, cfg, evidence, call)
  {
    hide Collectable, CustomArguments;
    ToolNamesDiffer(call.tool);
    var org := EffectiveOrg(req, cfg);
    var tool :| && tool in Collectable(req) && CUSTOM_PREFIX <= tool
                && call == Call(COLLECT_CUSTOM, CustomArguments(tool[|CUSTOM_PREFIX|..], req.clientId, org));
    ArtifactAsks(req.clientId, org, tool);
    assert "client_id" in call.arguments && "org_id" in call.arguments;
  }

  lemma StaticIsConfined(req: Request, cfg: Settings, evidence: seq<Item>, call: Call)
    requires req.platform == Windows && LegitStatic(req, cfg, call)
    ensures Confined(req, cfg, evidence, call)
  {
    hide StaticArguments, AsksHelper;
    ToolNamesDiffer(call.tool);
    var org := EffectiveOrg(req, cfg);
    var declared: set<string> :|
      call.arguments == StaticArguments(call.tool, declared, req.clientId, org, req.range, 50, 0);
    HelperAsks(call.tool, declared, req.clientId, org, req.range, 50, 0);
    assert call == Call(call.tool, call.arguments);
    HelperNamesItsTarget(call, declared, req.clientId, org, req.range, 50, 0);
  }

  lemma HelperNamesItsTarget(call: Call, declared: set<string>, client: string, org: string, range: TimeRange,
                             limit: int, offset: int)
    requires AsksHelper(call, declared, client, org, range, limit, offset)
    ensures "org_id" in call.arguments && call.arguments["org_id"] == Text(org)
    ensures "client_id" in call.arguments && call.arguments["client_id"] == Text(client)
  {
    hide Paged;
  }

  lemma DetailIsConfined(req: Request, cfg: Settings, evidence: seq<Item>, call: Call)
    requires req.platform == Windows && LegitDetail(req, cfg, evidence, call)
    ensures Confined(req, cfg, evidence, call)
  {
    hide SampledIds, Split, Pieces, DetailArguments;
    ToolNamesDiffer(call.tool);
    var org := EffectiveOrg(req, cfg);
    var e, k :| && 0 <= k < |evidence| && evidence[k].tool == EVENT_LOGS && evidence[k].ok
                && Permitted(e, req.range, SampledIds(evidence[k].data))
                && call == Call(EVENT_LOGS_DETAIL, DetailArguments(req.clientId, org, e));
    DetailAsks(req.clientId, org, e);
    assert "client_id" in call.arguments && "org_id" in call.arguments && "event_ids" in call.arguments;
    PiecesAreTextsExactlyWhen(e.ids);
    assert IsReported(evidence[k], e.ids) && IsTextOf(call.arguments["event_ids"].s, e.ids);
  }

  /** The verification and the triage. */
  lemma OwnCallsAreConfined(req: Request, cfg: Settings, evidence: seq<Item>, call: Call)
    requires call == Call("list_clients", VerifyArguments(req.clientId, EffectiveOrg(req, cfg))) ||
             (req.platform == Windows &&
              call == Call(EVENT_LOGS_TRIAGE, TriageArguments(req.clientId, EffectiveOrg(req, cfg), req.range)))
    ensures Confined(req, cfg, evidence, call)
  {
    hide TriageArguments, VerifyArguments;
    ToolNamesDiffer(call.tool);
    var org := EffectiveOrg(req, cfg);
    ClientAsks(req.clientId, org);
    TriageAsks(req.clientId, org, req.range);
    assert "org_id" in call.arguments;
  }

  /** The bridge's special tools are not among the fixed helpers, nor each other. */
  lemma ToolNamesDiffer(tool: string)
    ensures tool in WINDOWS_TOOLS ==> tool !in {"list_clients", COLLECT_CUSTOM, EVENT_LOGS_DETAIL, EVENT_LOGS_TRIAGE}
    ensures |{"list_clients", COLLECT_CUSTOM, EVENT_LOGS_DETAIL, EVENT_LOGS_TRIAGE, EVENT_LOGS}| == 5
  {
    assert "list_clients"[0] == 'l' && COLLECT_CUSTOM[0] == 'c' &&
        EVENT_LOGS_DETAIL[0] == EVENT_LOGS_TRIAGE[0] == EVENT_LOGS[0] == 'w';
    assert |EVENT_LOGS_DETAIL| == 25 && |EVENT_LOGS_TRIAGE| == 25 && |EVENT_LOGS| == 18;
    assert EVENT_LOGS_DETAIL[19] != EVENT_LOGS_TRIAGE[19];
    if tool in WINDOWS_TOOLS {
      assert tool[0] == 'w';
    }
  }
}
