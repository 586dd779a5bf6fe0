/** What a run's plan, assessment and report are made of: which answer, at which visit, went into which part. */
module RunResults {
  import opened Common
  import opened Catalog
  import opened Json
  import opened EvidenceBudget
  import opened Planning
  import opened Sequences
  import opened Expansions
  import opened Bridge
  import opened Workflow
  import opened Runs

  // ----- limitations are fixed labels -----

  const LABELS: set<string> := {
    "event_ids_empty", "event_ids_not_in_sample", "window_before_case_range", "window_after_case_range",
    "window_exceeds_60_minutes", "expansion_schema_invalid", "expansion_duplicate", "expansion_count_exceeded",
    "tier2_planning_failed"}

  ghost predicate OnlyLabels(limitations: seq<string>) {
    forall l :: l in limitations ==> l in LABELS
  }

  lemma ObjectionIsLabel(raw: Raw, range: TimeRange, sampled: set<string>)
    ensures Objection(raw, range, sampled).Some? ==> Objection(raw, range, sampled).value in LABELS
  {
    hide Parse, Contains, IdSet;
  }

  lemma {:induction false} LabelsAreFixed(raws: seq<Raw>, range: TimeRange, sampled: set<string>)
    ensures OnlyLabels(Labels(raws, range, sampled))
  {
    if raws != [] {
      hide Objection, Unique;
      LabelsAreFixed(raws[..|raws| - 1], range, sampled);
      ObjectionIsLabel(raws[|raws| - 1], range, sampled);
    }
  }

  /** Whatever text the models return, a run's limitations are drawn from nine fixed labels. */
  lemma {:induction false} LimitationsAreFixedLabels(req: Request, cfg: Settings, env: nat -> Turn, n: nat)
    requires cfg.maxSteps >= 1
    ensures OnlyLabels(After(req, cfg, env, n).limitations)
  {
    hide AfterVerify, AfterPlan, AfterCollect, AfterTier2, AfterAssess, AfterRender, OnlyLabels;
    if n == 0 {
      assert OnlyLabels([]) by { NoLabels(); }
    } else {
      LimitationsAreFixedLabels(req, cfg, env, n - 1);
      var s, t := After(req, cfg, env, n - 1), env(n - 1);
      match s.phase
      case At(Collect) => LabelsAfterCollect(req, cfg, s, t);
      case At(PlanTier2) => LabelsAfterTier2(req, cfg, s, t);
      case _ => OthersKeepLimitations(req, cfg, s, t);
    }
  }

  lemma NoLabels()
    ensures OnlyLabels([])
  {
  }

  lemma LabelsAfterCollect(req: Request, cfg: Settings, s: State, t: Turn)
    requires s.index < |s.plan| && OnlyLabels(s.limitations)
    ensures OnlyLabels(AfterCollect(req, cfg, s, t).limitations)
  {
    hide Triaged, Details, Collected, SampledIds, RequestedExpansions, Labels, Accepted;
    var (_, r) := Triaged(s.session, cfg, req.clientId, OrElse(req.orgId, cfg.orgId), req.range, t.wire(0));
    if r.Returned? {
      var sampled := SampledIds(r.value);
      var raws := RequestedExpansions(sampled, t);
      LabelsAreFixed(raws[..Examined(raws, req.range, sampled)], req.range, sampled);
    }
  }

  lemma LabelsAfterTier2(req: Request, cfg: Settings, s: State, t: Turn)
    requires OnlyLabels(s.limitations)
    ensures OnlyLabels(AfterTier2(req, cfg, s, t).limitations)
  {
    hide Fit, SelectedTier2, Tier2Names;
  }

  lemma OthersKeepLimitations(req: Request, cfg: Settings, s: State, t: Turn)
    requires Ready(s) && s.phase != At(Collect) && s.phase != At(PlanTier2)
    ensures Next(req, cfg, s, t).limitations == s.limitations
  {
    hide Verified, Sanitized, Fit, Validated, AfterCollect, AfterTier2;
  }

  // ----- where the parts come from -----

  /** The target was verified at the first visit: a row for exactly this client came back. */
  ghost predicate TargetVerified(req: Request, cfg: Settings, env: nat -> Turn) {
    exists r: Outcome<Json> ::
      && VerifyGoes(Session(None, []), After(req, cfg, env, 1).session, r, req.clientId, OwnOrg(req, cfg),
                    env(0).wire(0))
      && r.Returned?
  }

  /** The first n1 steps are the planner's answer at the second visit, sanitized. */
  ghost predicate PlannedInitially(req: Request, cfg: Settings, env: nat -> Turn, s: State) {
    && s.initial <= |s.plan|
    && env(1).plan.Some?
    && s.plan[..s.initial] ==
       Sanitized(env(1).plan.value, if cfg.maxSteps < 3 then cfg.maxSteps else 3, InitialNames(req), req.platform)
  }

  /**
   * Tier 2 was planned once, at visit n1 + 2, from the evidence fitted then: its steps follow the initial ones, and
   * a planner that raised left a label and no step.
   */
  ghost predicate PlannedAtTier2(req: Request, cfg: Settings, env: nat -> Turn, s: State)
    requires s.initial <= |s.plan|
  {
    var before, reply := After(req, cfg, env, s.initial + 2), env(s.initial + 2).tier2;
    var asked := Tier2Names(req) != {};
    && before.phase == At(PlanTier2) && before.plan == s.plan[..s.initial]
    && Fit(before.evidence, cfg.maxEvidenceChars).Ok?
    && s.plan[s.initial..] ==
       (if asked && reply.Proposed?
        then SelectedTier2(reply.proposals, Tier2Names(req), Fit(before.evidence, cfg.maxEvidenceChars).value) else [])
    && s.limitations == before.limitations + if asked && reply.Tier2Raised? then ["tier2_planning_failed"] else []
  }

  /** The assessment is the analyst's answer after all steps, kept to the fitted evidence, with all limitations. */
  ghost predicate Assessed(cfg: Settings, env: nat -> Turn, s: State) {
    && s.assessment.Some? && env(|s.plan| + 3).assessment.Some? && Fit(s.evidence, cfg.maxEvidenceChars).Ok?
    && var shown, given, kept :=
         Fit(s.evidence, cfg.maxEvidenceChars).value, env(|s.plan| + 3).assessment.value, s.assessment.value;
       && kept.findings == Validated(given, shown).findings && kept.iocs == Validated(given, shown).iocs
       && kept.severity == given.severity && kept.limitations == given.limitations + s.limitations
  }

  ghost predicate Reported(cfg: Settings, s: State) {
    && s.report.Some? && s.assessment.Some? && s.report.value.assessment == s.assessment.value
    && Fit(s.evidence, cfg.maxEvidenceChars) == Ok(s.report.value.evidence)
  }

  ghost predicate MadeOf(req: Request, cfg: Settings, env: nat -> Turn, s: State) {
    && (s.phase != At(VerifyTarget) && !s.phase.Failed? ==> TargetVerified(req, cfg, env))
    && (s.phase !in {At(VerifyTarget), At(MakePlan)} && !s.phase.Failed? ==>
          && PlannedInitially(req, cfg, env, s)
          && (s.tier2Planned ==> PlannedAtTier2(req, cfg, env, s)))
    && (s.phase in {At(RenderReport), Finished} ==> Assessed(cfg, env, s))
    && (s.phase == Finished ==> Reported(cfg, s))
  }

  /** A finished run's plan, assessment and report, traced to the answers that went into them. */
  lemma FinishedRunIsMadeOf(req: Request, cfg: Settings, env: nat -> Turn, n: nat)
    requires cfg.maxSteps >= 1 && After(req, cfg, env, n).phase == Finished
    ensures var s := After(req, cfg, env, n);
            && TargetVerified(req, cfg, env) && PlannedInitially(req, cfg, env, s) && PlannedAtTier2(req, cfg, env, s)
            && Assessed(cfg, env, s) && Reported(cfg, s)
  {
    hide TargetVerified, PlannedInitially, PlannedAtTier2, Assessed, Reported, After;
    MadeOfAlways(req, cfg, env, n);
    ShapeAlways(req, cfg, env, n);
    FinishedHasPlannedTier2(req, cfg, After(req, cfg, env, n));
  }

  lemma FinishedHasPlannedTier2(req: Request, cfg: Settings, s: State)
    requires s.phase == Finished && Shape(req, cfg, s)
    ensures s.tier2Planned && s.initial <= |s.plan|
  {
    hide Visited;
  }

  lemma {:induction false} MadeOfAlways(req: Request, cfg: Settings, env: nat -> Turn, n: nat)
    requires cfg.maxSteps >= 1
    ensures MadeOf(req, cfg, env, After(req, cfg, env, n))
  {
    hide After, MadeOf, Shape;
    if n == 0 {
      MadeAtStart(req, cfg, env);
    } else {
      MadeOfAlways(req, cfg, env, n - 1);
      ShapeAlways(req, cfg, env, n - 1);
      OneVisitPerStep(req, cfg, env, n - 1);
      match After(req, cfg, env, n - 1).phase
      case At(VerifyTarget) => MadeAfterVerify(req, cfg, env, n);
      case At(MakePlan) => MadeAfterPlan(req, cfg, env, n);
      case At(Collect) => MadeAfterCollect(req, cfg, env, n);
      case At(PlanTier2) => MadeAfterTier2(req, cfg, env, n);
      case At(Assess) => MadeAfterAssess(req, cfg, env, n);
      case At(RenderReport) => MadeAfterRender(req, cfg, env, n);
      case _ => OneStep(req, cfg, env, n);
    }
  }

  lemma MadeAtStart(req: Request, cfg: Settings, env: nat -> Turn)
    ensures MadeOf(req, cfg, env, After(req, cfg, env, 0))
  {
    hide Next;
    assert After(req, cfg, env, 0) == START;
  }

  lemma OneStep(req: Request, cfg: Settings, env: nat -> Turn, n: nat)
    requires n > 0
    ensures var s, t := After(req, cfg, env, n - 1), env(n - 1);
            After(req, cfg, env, n) ==
            match s.phase
            case At(VerifyTarget) => AfterVerify(req, cfg, s, t)
            case At(MakePlan) => AfterPlan(req, cfg, s, t)
            case At(Collect) => AfterCollect(req, cfg, s, t)
            case At(PlanTier2) => AfterTier2(req, cfg, s, t)
            case At(Assess) => AfterAssess(cfg, s, t)
            case At(RenderReport) => AfterRender(cfg, s)
            case _ => s
  {
    hide AfterVerify, AfterPlan, AfterCollect, AfterTier2, AfterAssess, AfterRender;
  }

  lemma MadeAfterVerify(req: Request, cfg: Settings, env: nat -> Turn, n: nat)
    requires n > 0 && cfg.maxSteps >= 1
    requires var s := After(req, cfg, env, n - 1);
             s.phase == At(VerifyTarget) && Shape(req, cfg, s) && |s.visits| == n - 1
    ensures MadeOf(req, cfg, env, After(req, cfg, env, n))
  {
    hide Verified, VerifyGoes, After;
    assert n == 1;
    OneStep(req, cfg, env, n);
    var org := OrElse(req.orgId, cfg.orgId);
    VerifiedGoes(Session(None, []), cfg, req.clientId, org, env(0).wire(0));
    assert org == OwnOrg(req, cfg);
    var (session, r) := Verified(Session(None, []), cfg, req.clientId, org, env(0).wire(0));
    assert After(req, cfg, env, 1).session == session;
  }

  lemma MadeAfterPlan(req: Request, cfg: Settings, env: nat -> Turn, n: nat)
    requires n > 0 && cfg.maxSteps >= 1
    requires var s := After(req, cfg, env, n - 1);
             && s.phase == At(MakePlan) && Shape(req, cfg, s) && |s.visits| == n - 1 && MadeOf(req, cfg, env, s)
    ensures MadeOf(req, cfg, env, After(req, cfg, env, n))
  {
    hide TargetVerified, Sanitized, InitialNames;
    assert n == 2;
    OneStep(req, cfg, env, n);
    hide After;
    var s' := AfterPlan(req, cfg, After(req, cfg, env, 1), env(1));
    assert s'.plan[..|s'.plan|] == s'.plan;
  }

  lemma MadeAfterCollect(req: Request, cfg: Settings, env: nat -> Turn, n: nat)
    requires n > 0 && cfg.maxSteps >= 1
    requires var s := After(req, cfg, env, n - 1);
             s.phase == At(Collect) && Shape(req, cfg, s) && MadeOf(req, cfg, env, s)
    ensures MadeOf(req, cfg, env, After(req, cfg, env, n))
  {
    hide TargetVerified, Assessed, Reported, AfterCollect, Sanitized, After, PlannedAtTier2, Visited, InitialNames;
    OneStep(req, cfg, env, n);
    var s, s' := After(req, cfg, env, n - 1), After(req, cfg, env, n);
    CollectFrame(req, cfg, s, env(n - 1));
    if s.tier2Planned {
      Tier2StepsAreCustom(req, cfg, s);
      ArtifactsKeepLimitations(req, cfg, s, env(n - 1));
      PlannedStays(req, cfg, env, s, s');
    }
  }

  lemma Tier2StepsAreCustom(req: Request, cfg: Settings, s: State)
    requires s.phase == At(Collect) && Shape(req, cfg, s) && s.tier2Planned
    ensures s.index < |s.plan| && s.plan[s.index] != EVENT_LOGS
  {
    hide Visited;
    CandidatesAreCustom(req, s.plan[s.index]);
    assert EVENT_LOGS[0] == 'w' && CUSTOM_PREFIX[0] == 'c';
  }

  lemma ArtifactsKeepLimitations(req: Request, cfg: Settings, s: State, t: Turn)
    requires s.index < |s.plan| && s.plan[s.index] != EVENT_LOGS
    ensures AfterCollect(req, cfg, s, t).limitations == s.limitations
  {
    hide Collected, CollectedItem;
  }

  lemma MadeAfterTier2(req: Request, cfg: Settings, env: nat -> Turn, n: nat)
    requires n > 0 && cfg.maxSteps >= 1
    requires var s := After(req, cfg, env, n - 1);
             && s.phase == At(PlanTier2) && Shape(req, cfg, s) && |s.visits| == n - 1 && MadeOf(req, cfg, env, s)
    ensures MadeOf(req, cfg, env, After(req, cfg, env, n))
  {
    hide TargetVerified, Fit, SelectedTier2, Sanitized, Tier2Names, After, AfterTier2;
    var s, s' := After(req, cfg, env, n - 1), After(req, cfg, env, n);
    OneStep(req, cfg, env, n);
    VisitedSoFar(req, cfg, s);
    assert n - 1 == s.initial + 2;
    Tier2Leaves(req, cfg, s, env(n - 1));
    assert s.plan[..s.initial] == s.plan;
    if !s'.phase.Failed? {
      assert s'.plan[..s.initial] == s.plan;
      assert s'.plan[s.initial..] == s'.plan[|s.plan|..];
    }
  }

  /** When tier 2 is planned, the run has made n1 + 2 visits; when it is assessed, 3 and one for each step. */
  lemma VisitedSoFar(req: Request, cfg: Settings, s: State)
    requires Shape(req, cfg, s)
    ensures s.phase == At(PlanTier2) ==> |s.visits| == s.initial + 2 && s.initial == |s.plan| && !s.tier2Planned
    ensures s.phase == At(Assess) ==> |s.visits| == |s.plan| + 3 && s.tier2Planned && s.initial <= |s.plan|
  {
  }

  lemma Tier2Leaves(req: Request, cfg: Settings, s: State, t: Turn)
    ensures var s', asked := AfterTier2(req, cfg, s, t), Tier2Names(req) != {};
            if Fit(s.evidence, cfg.maxEvidenceChars).Err? then s'.phase.Failed?
            else
              && s'.phase in {At(Collect), At(Assess)} && s'.tier2Planned && s'.initial == s.initial
              && s'.plan == s.plan +
                 (if asked && t.tier2.Proposed?
                  then SelectedTier2(t.tier2.proposals, Tier2Names(req), Fit(s.evidence, cfg.maxEvidenceChars).value)
                  else [])
              && s'.limitations ==
                 s.limitations + if asked && t.tier2.Tier2Raised? then ["tier2_planning_failed"] else []
  {
    hide Fit, SelectedTier2, Tier2Names;
  }

  lemma MadeAfterAssess(req: Request, cfg: Settings, env: nat -> Turn, n: nat)
    requires n > 0 && cfg.maxSteps >= 1
    requires var s := After(req, cfg, env, n - 1);
             && s.phase == At(Assess) && Shape(req, cfg, s) && |s.visits| == n - 1 && MadeOf(req, cfg, env, s)
    ensures MadeOf(req, cfg, env, After(req, cfg, env, n))
  {
    hide TargetVerified, Fit, Sanitized, PlannedAtTier2, InitialNames, After, Visited, GroundedFindings,
      GroundedIocs;
    OneStep(req, cfg, env, n);
    var s, s' := After(req, cfg, env, n - 1), After(req, cfg, env, n);
    VisitedSoFar(req, cfg, s);
    hide Shape;
    if s'.phase == At(RenderReport) {
      PlannedStays(req, cfg, env, s, s');
      assert Assessed(cfg, env, s');
    }
  }

  lemma PlannedStays(req: Request, cfg: Settings, env: nat -> Turn, s: State, s': State)
    requires s.initial <= |s.plan| && PlannedAtTier2(req, cfg, env, s)
    requires s'.plan == s.plan && s'.initial == s.initial && s'.limitations == s.limitations
    ensures PlannedAtTier2(req, cfg, env, s')
  {
    hide After, Fit, SelectedTier2, Tier2Names;
  }

  lemma MadeAfterRender(req: Request, cfg: Settings, env: nat -> Turn, n: nat)
    requires n > 0 && cfg.maxSteps >= 1
    requires var s := After(req, cfg, env, n - 1);
             s.phase == At(RenderReport) && Shape(req, cfg, s) && MadeOf(req, cfg, env, s)
    ensures MadeOf(req, cfg, env, After(req, cfg, env, n))
  {
    hide TargetVerified, Fit, Sanitized, PlannedAtTier2, InitialNames, Validated, After;
    OneStep(req, cfg, env, n);
    var s := After(req, cfg, env, n - 1);
    RenderHasPlannedTier2(req, cfg, s);
    PlannedStays(req, cfg, env, s, After(req, cfg, env, n));
  }

  lemma RenderHasPlannedTier2(req: Request, cfg: Settings, s: State)
    requires s.phase == At(RenderReport) && Shape(req, cfg, s)
    ensures s.tier2Planned && s.initial <= |s.plan|
  {
    hide Visited;
  }

  // ----- when a node fails -----

  /** The bridge offers the client list, answers it, and a row of the answer names the client. */
  ghost predicate Verifiable(req: Request, s: State, t: Turn) {
    && Offers(s.session, t.wire(0), "list_clients") && t.wire(0).reply.Answer? && t.wire(0).reply.envelope.ok
    && Loggable(t.wire(0).reply.envelope.data)
    && exists row :: row in Rows(t.wire(0).reply.envelope.data) && Names(row, req.clientId)
  }

  /**
   * Verification fails without such a row, planning if the planner raises or there is nothing to plan with,
   * assessing if the analyst fails; tier 2, assessing and rendering also if the evidence cannot be fitted.
   * Collecting never does.
   */
  lemma NodeFailsExactlyWhen(req: Request, cfg: Settings, s: State, t: Turn)
    requires cfg.maxSteps >= 1 && Ready(s) && !Ended(s)
    ensures Next(req, cfg, s, t).phase.Failed? <==>
            match s.phase.node
            case VerifyTarget => !Verifiable(req, s, t)
            case MakePlan => t.plan.None? || (req.platform != Windows && InitialNames(req) == {})
            case Collect => false
            case PlanTier2 => Fit(s.evidence, cfg.maxEvidenceChars).Err?
            case Assess => Fit(s.evidence, cfg.maxEvidenceChars).Err? || t.assessment.None?
            case RenderReport => Fit(s.evidence, cfg.maxEvidenceChars).Err?
  {
    hide AfterVerify, Verifiable, Sanitized, InitialNames, AfterCollect, Fit, Validated, SelectedTier2, Tier2Names;
    match s.phase.node
    case VerifyTarget => VerifyFailsExactlyWhen(req, cfg, s, t);
    case MakePlan =>
      if t.plan.Some? {
        SanitizedEmptyExactlyWhen(t.plan.value, InitialLimit(cfg), InitialNames(req), req.platform);
      }
    case Collect => CollectFrame(req, cfg, s, t);
    case _ =>
  }

  lemma VerifyFailsExactlyWhen(req: Request, cfg: Settings, s: State, t: Turn)
    requires s.index == 0
    ensures AfterVerify(req, cfg, s, t).phase.Failed? <==> !Verifiable(req, s, t)
  {
    hide Verified, Rows, Names, Loggable, CallsOnce, AsksForClient, Offers;
    var org := OrElse(req.orgId, cfg.orgId);
    VerifiedGoes(s.session, cfg, req.clientId, org, t.wire(0));
    var (session, r) := Verified(s.session, cfg, req.clientId, org, t.wire(0));
    assert VerifyGoes(s.session, session, r, req.clientId, org, t.wire(0));
    assert r.Returned? <==> Verifiable(req, s, t);
    assert AfterVerify(req, cfg, s, t).phase.Failed? <==> r.Threw?;
  }
}
