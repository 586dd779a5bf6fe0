/** How a run's evidence is numbered, what the assessment may cite, and when a tool can run twice. */
module RunEvidence {
  import opened Common
  import opened Catalog
  import opened EvidenceBudget
  import opened Planning
  import opened Sequences
  import opened Expansions
  import opened Bridge
  import opened Workflow
  import opened Runs

  /** The numbers from..to, both included. */
  function Span(from: nat, to: nat): seq<nat> {
    if to < from then [] else seq(to - from + 1, k requires k >= 0 => from + k)
  }

  ghost predicate Numbered(evidence: seq<Item>, numbers: seq<nat>) {
    |evidence| == |numbers| && forall k :: 0 <= k < |evidence| ==> evidence[k].id == EvidenceId(numbers[k])
  }

  predicate HasDetail(evidence: seq<Item>) {
    exists k :: 0 <= k < |evidence| && evidence[k].tool == EVENT_LOGS_DETAIL
  }

  /** The numbers used when step p added d details among i steps: the details reuse the numbers of later steps. */
  function Overlapping(p: nat, d: nat, i: nat): seq<nat> {
    Span(1, p + 1 + d) + Span(p + 2, i)
  }

  /** Step p was the event-log step and added d details. */
  ghost predicate DetailedAt(s: State, p: nat, d: nat) {
    && 1 <= d <= MAX_DETAIL_CALLS && p < s.index <= |s.plan| && s.plan[p] == EVENT_LOGS
    && Numbered(s.evidence, Overlapping(p, d, s.index)) && HasDetail(s.evidence)
  }

  ghost predicate Layout(s: State) {
    && s.index <= |s.plan|
    && (forall k :: 0 <= k < s.index ==> s.plan[k] in ToolsOf(s.evidence))
    && ((Numbered(s.evidence, Span(1, s.index)) && !HasDetail(s.evidence)) || exists p, d :: DetailedAt(s, p, d))
  }

  /** A collect visit adds the step's own item, then the event-log details if there are any. */
  lemma CollectedItems(req: Request, cfg: Settings, s: State, t: Turn) returns (first: Item, items: seq<Item>)
    requires s.index < |s.plan|
    ensures AfterCollect(req, cfg, s, t).evidence == s.evidence + [first] + items
    ensures first.id == EvidenceId(s.index + 1) && first.tool == s.plan[s.index]
    ensures |items| <= MAX_DETAIL_CALLS && (items != [] ==> s.plan[s.index] == EVENT_LOGS)
    ensures forall k :: 0 <= k < |items| ==>
        items[k].tool == EVENT_LOGS_DETAIL && items[k].id == EvidenceId(s.index + 2 + k)
  {
    hide Collected, Triaged, Rejections, Unique, EvidenceId, Details;
    var s' := AfterCollect(req, cfg, s, t);
    first := s'.evidence[|s.evidence|];
    items := s'.evidence[|s.evidence| + 1..];
    if s.plan[s.index] == EVENT_LOGS {
      var (session, r) := Triaged(s.session, cfg, req.clientId, OrElse(req.orgId, cfg.orgId), req.range, t.wire(0));
      if r.Returned? {
        var sampled := SampledIds(r.value);
        DetailsItems(req, cfg, session, s.index, Accepted(RequestedExpansions(sampled, t), req.range, sampled), t);
      }
    }
  }

  /** A failing tool never stops a run or loses evidence: collecting always goes on, adding at least its own item. */
  lemma CollectNeverFails(req: Request, cfg: Settings, s: State, t: Turn)
    requires s.index < |s.plan|
    ensures var s' := AfterCollect(req, cfg, s, t);
            && s'.phase.At? && s'.index == s.index + 1
            && s.evidence < s'.evidence && s'.evidence[|s.evidence|].tool == s.plan[s.index]
  {
    hide AfterCollect;
    CollectFrame(req, cfg, s, t);
    var first, items := CollectedItems(req, cfg, s, t);
  }

  /** The event-log step occurs once at most, and no plan step is a detail. */
  lemma EventLogsOnce(req: Request, cfg: Settings, s: State, i: nat, j: nat)
    requires PlanBounded(req, cfg, s) && i < |s.plan| && j < |s.plan|
    ensures s.plan[i] == EVENT_LOGS && s.plan[j] == EVENT_LOGS ==> i == j
    ensures s.plan[i] != EVENT_LOGS_DETAIL
  {
    PlanToolIsAllowed(req, cfg, s, i);
    PlanToolIsAllowed(req, cfg, s, j);
    assert EVENT_LOGS[0] == 'w' && EVENT_LOGS_DETAIL[0] == 'w' && CUSTOM_PREFIX[0] == 'c';
    if s.plan[i] in WINDOWS_TOOLS {
      WindowsToolsAreNotCustom(s.plan[i]);
    }
    if s.plan[i] == EVENT_LOGS && s.plan[j] == EVENT_LOGS {
      assert s.plan[..s.initial][i] == s.plan[..s.initial][j];
    }
  }

  lemma LayoutAfterCollect(req: Request, cfg: Settings, s: State, t: Turn)
    requires PlanBounded(req, cfg, s) && s.index < |s.plan| && Layout(s)
    ensures Layout(AfterCollect(req, cfg, s, t))
  {
    hide AfterCollect, EvidenceId, PlanBounded, Layout, Route;
    var first, items := CollectedItems(req, cfg, s, t);
    CollectFrame(req, cfg, s, t);
    LayoutKept(req, cfg, s, AfterCollect(req, cfg, s, t), first, items);
  }

  /** s' is s after one collect visit that added `first` and then `items`. */
  ghost predicate CollectedInto(s: State, s': State, first: Item, items: seq<Item>) {
    && s.index < |s.plan| && s'.plan == s.plan && s'.index == s.index + 1
    && s'.evidence == s.evidence + [first] + items
    && first.id == EvidenceId(s.index + 1) && first.tool == s.plan[s.index]
    && |items| <= MAX_DETAIL_CALLS && (items != [] ==> s.plan[s.index] == EVENT_LOGS)
    && forall k :: 0 <= k < |items| ==> items[k].tool == EVENT_LOGS_DETAIL && items[k].id == EvidenceId(s.index + 2 + k)
  }

  lemma ToolsKept(s: State, s': State, first: Item, items: seq<Item>)
    requires Layout(s) && CollectedInto(s, s', first, items)
    ensures forall k :: 0 <= k < s'.index ==> s'.plan[k] in ToolsOf(s'.evidence)
  {
    forall k | 0 <= k < s'.index ensures s'.plan[k] in ToolsOf(s'.evidence) {
      if k == s.index {
        assert first in s'.evidence;
      } else {
        assert s.plan[k] in ToolsOf(s.evidence);
        var item :| item in s.evidence && item.tool == s.plan[k];
        assert item in s'.evidence;
      }
    }
  }

  lemma NumbersKept(s: State, s': State, first: Item, items: seq<Item>, p: nat, d: nat)
    requires CollectedInto(s, s', first, items) && items == [] && DetailedAt(s, p, d)
    ensures DetailedAt(s', p, d)
  {
    hide EvidenceId;
    assert s'.evidence == s.evidence + [first];
    assert Overlapping(p, d, s'.index) == Overlapping(p, d, s.index) + [s.index + 1];
    DetailStays(s.evidence, s'.evidence);
  }

  lemma NumbersStart(s: State, s': State, first: Item, items: seq<Item>)
    requires CollectedInto(s, s', first, items)
    requires Numbered(s.evidence, Span(1, s.index)) && !HasDetail(s.evidence) && first.tool != EVENT_LOGS_DETAIL
    ensures items == [] ==> Numbered(s'.evidence, Span(1, s'.index)) && !HasDetail(s'.evidence)
    ensures items != [] ==> DetailedAt(s', s.index, |items|)
  {
    hide EvidenceId;
    var d := |items|;
    if items == [] {
      assert s'.evidence == s.evidence + [first];
      assert Span(1, s'.index) == Span(1, s.index) + [s.index + 1];
    } else {
      assert Overlapping(s.index, d, s'.index) == Span(1, s.index) + [s.index + 1] + Span(s.index + 2, s.index + 1 + d);
      assert s'.evidence[|s.evidence| + 1].tool == EVENT_LOGS_DETAIL;
    }
  }

  lemma LayoutKept(req: Request, cfg: Settings, s: State, s': State, first: Item, items: seq<Item>)
    requires PlanBounded(req, cfg, s) && Layout(s) && CollectedInto(s, s', first, items)
    ensures Layout(s')
  {
    hide EvidenceId, PlanBounded, Numbered, HasDetail, ToolsOf;
    ToolsKept(s, s', first, items);
    EventLogsOnce(req, cfg, s, s.index, s.index);
    if exists p, d :: DetailedAt(s, p, d) {
      var p, d :| DetailedAt(s, p, d);
      EventLogsOnce(req, cfg, s, p, s.index);
      NumbersKept(s, s', first, items, p, d);
    } else {
      NumbersStart(s, s', first, items);
    }
  }

  lemma DetailStays(before: seq<Item>, after: seq<Item>)
    requires before <= after && HasDetail(before)
    ensures HasDetail(after)
  {
    var k :| 0 <= k < |before| && before[k].tool == EVENT_LOGS_DETAIL;
    assert after[k].tool == EVENT_LOGS_DETAIL;
  }

  /** Planning and reporting keep the index and only ever extend the plan. */
  lemma OthersFrame(req: Request, cfg: Settings, s: State, t: Turn)
    requires Ready(s) && s.phase != At(Collect) && Shape(req, cfg, s)
    ensures var s' := Next(req, cfg, s, t);
            s'.index == s.index && s'.evidence == s.evidence && (s.index > 0 ==> s.plan <= s'.plan)
  {
    hide Sanitized, Verified, Fit, Validated, SelectedTier2, PlanBounded, Visited, AfterCollect, VerifyArguments;
  }

  lemma LayoutAfterOthers(req: Request, cfg: Settings, s: State, t: Turn)
    requires Ready(s) && s.phase != At(Collect) && Layout(s) && Shape(req, cfg, s)
    ensures Layout(Next(req, cfg, s, t))
  {
    hide Next, Shape, EvidenceId;
    OthersFrame(req, cfg, s, t);
    var s' := Next(req, cfg, s, t);
    if exists p, d :: DetailedAt(s, p, d) {
      var p, d :| DetailedAt(s, p, d);
      assert DetailedAt(s', p, d);
    }
  }

  lemma {:induction false} LayoutAlways(req: Request, cfg: Settings, env: nat -> Turn, n: nat)
    requires cfg.maxSteps >= 1
    ensures Layout(After(req, cfg, env, n))
  {
    hide Next, PlanBounded, Visited, EvidenceId;
    if n > 0 {
      LayoutAlways(req, cfg, env, n - 1);
      ShapeAlways(req, cfg, env, n - 1);
      var s, t := After(req, cfg, env, n - 1), env(n - 1);
      if s.phase == At(Collect) {
        LayoutAfterCollect(req, cfg, s, t);
        NextAfterCollect(req, cfg, s, t);
      } else {
        LayoutAfterOthers(req, cfg, s, t);
      }
    }
  }

  lemma NextAfterCollect(req: Request, cfg: Settings, s: State, t: Turn)
    requires Ready(s) && s.phase == At(Collect)
    ensures Next(req, cfg, s, t) == AfterCollect(req, cfg, s, t)
  {
    hide AfterCollect, AfterPlan, AfterTier2, AfterVerify, AfterAssess, AfterRender;
  }

  lemma NumbersTellIdsApart(evidence: seq<Item>, numbers: seq<nat>)
    requires Numbered(evidence, numbers)
    ensures NoRepeats(Ids(evidence)) <==> NoRepeats(numbers)
  {
    forall i, j | 0 <= i < j < |evidence| ensures Ids(evidence)[i] == Ids(evidence)[j] <==> numbers[i] == numbers[j] {
      if Ids(evidence)[i] == Ids(evidence)[j] {
        EvidenceIdInjective(numbers[i], numbers[j]);
      }
    }
  }

  lemma OverlapRepeats(p: nat, d: nat, i: nat)
    requires d >= 1 && p < i
    ensures NoRepeats(Overlapping(p, d, i)) <==> i == p + 1
  {
    var numbers := Overlapping(p, d, i);
    if i > p + 1 {
      assert numbers[p + 1] == p + 2 && numbers[p + 1 + d] == p + 2;
    } else {
      assert forall k :: 0 <= k < |numbers| ==> numbers[k] == k + 1;
    }
  }

  /**
   * The evidence ids of a finished run are pairwise distinct exactly when no event-log detail was
   * collected or the event-log step is the last of the final plan.
   */
  lemma IdsDistinctExactlyWhen(req: Request, cfg: Settings, env: nat -> Turn, n: nat)
    requires cfg.maxSteps >= 1 && After(req, cfg, env, n).phase == Finished
    ensures var s := After(req, cfg, env, n);
            && s.plan != []
            && (NoRepeats(Ids(s.evidence)) <==> !HasDetail(s.evidence) || s.plan[|s.plan| - 1] == EVENT_LOGS)
  {
    hide After, Visited, Layout, PlanBounded;
    ShapeAlways(req, cfg, env, n);
    LayoutAlways(req, cfg, env, n);
    DistinctWhenCollected(req, cfg, After(req, cfg, env, n));
  }

  lemma DistinctWhenCollected(req: Request, cfg: Settings, s: State)
    requires PlanBounded(req, cfg, s) && Layout(s) && s.index == |s.plan|
    ensures s.plan != []
    ensures NoRepeats(Ids(s.evidence)) <==> !HasDetail(s.evidence) || s.plan[|s.plan| - 1] == EVENT_LOGS
  {
    hide EvidenceId, Overlapping, Ids, NoRepeats, ToolsOf;
    if !HasDetail(s.evidence) {
      NumbersTellIdsApart(s.evidence, Span(1, s.index));
      SpanHasNoRepeats(1, s.index);
    } else {
      var p, d :| DetailedAt(s, p, d);
      NumbersTellIdsApart(s.evidence, Overlapping(p, d, s.index));
      OverlapRepeats(p, d, s.index);
      EventLogsOnce(req, cfg, s, p, |s.plan| - 1);
    }
  }

  lemma SpanHasNoRepeats(from: nat, to: nat)
    ensures NoRepeats(Span(from, to))
  {
  }

  // ----- citations -----

  ghost predicate Cited(cfg: Settings, s: State) {
    s.phase == At(RenderReport) || s.phase == Finished ==>
      && s.assessment.Some? && Fit(s.evidence, cfg.maxEvidenceChars).Ok?
      && var shown := Fit(s.evidence, cfg.maxEvidenceChars).value;
      && (forall f :: f in s.assessment.value.findings ==> Grounded(f, Ids(shown)))
      && (forall c :: c in s.assessment.value.iocs ==> c.ref in Ids(shown))
      && (s.phase == Finished ==> s.report == Some(Report(shown, s.assessment.value)))
  }

  lemma CitedKept(req: Request, cfg: Settings, s: State, t: Turn)
    requires Ready(s) && Cited(cfg, s)
    ensures Cited(cfg, Next(req, cfg, s, t))
  {
    hide Verified, Sanitized, AfterCollect, Fit, Validated, SelectedTier2;
    if s.phase == At(Collect) {
      CollectFrame(req, cfg, s, t);
    } else if s.phase == At(Assess) && t.assessment.Some? && Fit(s.evidence, cfg.maxEvidenceChars).Ok? {
      ValidatedKeepsExactlyTheGrounded(t.assessment.value, Fit(s.evidence, cfg.maxEvidenceChars).value);
    }
  }

  lemma {:induction false} CitedAlways(req: Request, cfg: Settings, env: nat -> Turn, n: nat)
    ensures Cited(cfg, After(req, cfg, env, n))
  {
    hide Next, Cited;
    if n > 0 {
      CitedAlways(req, cfg, env, n - 1);
      CitedKept(req, cfg, After(req, cfg, env, n - 1), env(n - 1));
    } else {
      CitedAtStart(cfg);
    }
  }

  lemma CitedAtStart(cfg: Settings)
    ensures Cited(cfg, START)
  {
  }

  /**
   * The report of a finished run prints the fitted evidence, within budget, and every finding and
   * indicator in it cites only ids on that printed list, each finding at least one.
   */
  lemma ReportCitesOnlyPrintedEvidence(req: Request, cfg: Settings, env: nat -> Turn, n: nat)
    requires cfg.maxEvidenceChars >= 2 && After(req, cfg, env, n).phase == Finished
    ensures var s := After(req, cfg, env, n);
            && s.report.Some? && s.assessment == Some(s.report.value.assessment)
            && |Serialize(s.report.value.evidence)| <= cfg.maxEvidenceChars
            && (forall f :: f in s.report.value.assessment.findings ==>
                  f.refs != [] && forall ref :: ref in f.refs ==> ref in Ids(s.report.value.evidence))
            && (forall c :: c in s.report.value.assessment.iocs ==> c.ref in Ids(s.report.value.evidence))
  {
    hide After, Fit, Serialize;
    CitedAlways(req, cfg, env, n);
    FitStaysWithinBudget(After(req, cfg, env, n).evidence, cfg.maxEvidenceChars);
  }

  // ----- how many calls a run makes -----

  ghost predicate EventLogsDone(s: State) {
    exists k :: 0 <= k < s.index && k < |s.plan| && s.plan[k] == EVENT_LOGS
  }

  /** One call verifies the target, one is made for each step done, and the details add two at most. */
  ghost predicate CallsCounted(cfg: Settings, s: State) {
    && (s.phase == At(VerifyTarget) ==> s.session.calls == [])
    && s.index <= InitialLimit(cfg) + MAX_TIER2_STEPS
    && |s.session.calls| <= 1 + s.index + if EventLogsDone(s) then MAX_DETAIL_CALLS else 0
  }

  lemma VerifyCallsOnce(req: Request, cfg: Settings, t: Turn)
    ensures |AfterVerify(req, cfg, START, t).session.calls| <= 1
  {
    hide VerifyArguments, FirstNamed, Rows, Loggable;
  }

  lemma EventLogsCalls(req: Request, cfg: Settings, s: State, t: Turn)
    ensures |AfterEventLogs(req, cfg, s, t).session.calls| <= |s.session.calls| + 1 + MAX_DETAIL_CALLS
  {
    TriageCallsOnce(req, cfg, s.session, t);
    hide Triaged, Details, Rejections, Unique, SampledIds, EvidenceId, EventLogItem;
    var (session, r) := Triaged(s.session, cfg, req.clientId, OrElse(req.orgId, cfg.orgId), req.range, t.wire(0));
    if r.Returned? {
      var sampled := SampledIds(r.value);
      DetailsCalls(req, cfg, session, s.index, Accepted(RequestedExpansions(sampled, t), req.range, sampled), t);
    }
  }

  lemma TriageCallsOnce(req: Request, cfg: Settings, session: Session, t: Turn)
    ensures var after := Triaged(session, cfg, req.clientId, OrElse(req.orgId, cfg.orgId), req.range, t.wire(0)).0;
            |after.calls| <= |session.calls| + 1
  {
    hide Summary, TriageArguments, Loggable;
  }

  lemma CountedAfterCollect(req: Request, cfg: Settings, s: State, t: Turn)
    requires PlanBounded(req, cfg, s) && s.index < |s.plan| && CallsCounted(cfg, s)
    ensures CallsCounted(cfg, AfterCollect(req, cfg, s, t))
  {
    var s' := AfterCollect(req, cfg, s, t);
    CollectFrame(req, cfg, s, t);
    hide AfterEventLogs, AfterOneTool, EventLogsDone;
    if s.plan[s.index] == EVENT_LOGS {
      EventLogsCalls(req, cfg, s, t);
      EventLogsBegin(req, cfg, s, s');
    } else {
      OneToolCalls(req, cfg, s, t);
      DoneStaysDone(s, s');
    }
  }

  /** The event-log step is done by this visit and was not before. */
  lemma EventLogsBegin(req: Request, cfg: Settings, s: State, s': State)
    requires PlanBounded(req, cfg, s) && s.index < |s.plan| && s.plan[s.index] == EVENT_LOGS
    requires s'.plan == s.plan && s'.index == s.index + 1
    ensures !EventLogsDone(s) && EventLogsDone(s')
  {
    forall k | 0 <= k < s.index ensures s.plan[k] != EVENT_LOGS {
      EventLogsOnce(req, cfg, s, k, s.index);
    }
    assert s'.plan[s.index] == EVENT_LOGS;
  }

  lemma DoneStaysDone(s: State, s': State)
    requires s.index <= s'.index && (s.index > 0 ==> s.plan <= s'.plan)
    ensures EventLogsDone(s) ==> EventLogsDone(s')
  {
    if EventLogsDone(s) {
      var k :| 0 <= k < s.index && k < |s.plan| && s.plan[k] == EVENT_LOGS;
      assert s'.plan[k] == EVENT_LOGS;
    }
  }

  lemma CountedAfterOthers(req: Request, cfg: Settings, s: State, t: Turn)
    requires Ready(s) && s.phase != At(Collect) && Shape(req, cfg, s) && CallsCounted(cfg, s)
    ensures CallsCounted(cfg, Next(req, cfg, s, t))
  {
    OthersFrame(req, cfg, s, t);
    NotBackToVerification(req, cfg, s, t);
    DoneStaysDone(s, Next(req, cfg, s, t));
    if s.phase == At(VerifyTarget) {
      assert Next(req, cfg, s, t) == AfterVerify(req, cfg, START, t);
      hide Next, Shape, EventLogsDone, AfterVerify;
      VerifyCallsOnce(req, cfg, t);
    } else {
      OtherNodesDoNotCall(req, cfg, s, t);
      hide Next, Shape, EventLogsDone;
    }
  }

  lemma NotBackToVerification(req: Request, cfg: Settings, s: State, t: Turn)
    requires Ready(s)
    ensures Next(req, cfg, s, t).phase != At(VerifyTarget)
  {
    hide Verified, Sanitized, Collected, Triaged, Details, Accepted, Rejections, Fit, Validated, SelectedTier2;
  }

  lemma {:induction false} CountedAlways(req: Request, cfg: Settings, env: nat -> Turn, n: nat)
    requires cfg.maxSteps >= 1
    ensures CallsCounted(cfg, After(req, cfg, env, n))
  {
    hide Next, Shape, CallsCounted, PlanBounded;
    if n > 0 {
      CountedAlways(req, cfg, env, n - 1);
      ShapeAlways(req, cfg, env, n - 1);
      var s, t := After(req, cfg, env, n - 1), env(n - 1);
      if s.phase == At(Collect) {
        CollectingIsBounded(req, cfg, s);
        CountedAfterCollect(req, cfg, s, t);
        NextAfterCollect(req, cfg, s, t);
      } else {
        CountedAfterOthers(req, cfg, s, t);
      }
    } else {
      NothingCalledYet(cfg);
    }
  }

  lemma CollectingIsBounded(req: Request, cfg: Settings, s: State)
    requires Shape(req, cfg, s) && s.phase == At(Collect)
    ensures PlanBounded(req, cfg, s)
  {
  }

  lemma NothingCalledYet(cfg: Settings)
    ensures CallsCounted(cfg, START)
  {
  }

  /** A run, failed or not, makes at most 1 + min(max_steps, 3) + 2 + 2 calls, hence at most eight. */
  lemma CallsAreFew(req: Request, cfg: Settings, env: nat -> Turn, n: nat)
    requires cfg.maxSteps >= 1
    ensures |After(req, cfg, env, n).session.calls| <= 1 + InitialLimit(cfg) + MAX_TIER2_STEPS + MAX_DETAIL_CALLS <= 8
  {
    hide After;
    CountedAlways(req, cfg, env, n);
  }

  // ----- running a tool twice -----

  /** The budget dropped every item of a tool that was collected. */
  ghost predicate Dropped(cfg: Settings, evidence: seq<Item>, tool: string) {
    && Fit(evidence, cfg.maxEvidenceChars).Ok?
    && tool in ToolsOf(evidence) && tool !in ToolsOf(Fit(evidence, cfg.maxEvidenceChars).value)
  }

  /** A collected tool that is a tier-2 candidate and of whose evidence tier-2 planning was shown nothing. */
  ghost predicate Repeatable(req: Request, cfg: Settings, s: State, tool: string) {
    tool in s.plan && tool in Tier2Names(req) && Dropped(cfg, s.evidence, tool)
  }

  lemma PlannedAtTier2(req: Request, cfg: Settings, env: nat -> Turn, n: nat)
    requires cfg.maxSteps >= 1 && After(req, cfg, env, n).phase == At(PlanTier2)
    ensures var s := After(req, cfg, env, n);
            && NoRepeats(s.plan)
            && (forall k :: 0 <= k < |s.plan| ==> s.plan[k] in ToolsOf(s.evidence))
            && (forall k :: 0 <= k < |s.plan| ==> s.plan[k] in StaticTools(req.platform) + InitialNames(req))
  {
    hide After, ToolsOf, Numbered, HasDetail;
    ShapeAlways(req, cfg, env, n);
    LayoutAlways(req, cfg, env, n);
    var s := After(req, cfg, env, n);
    assert s.plan[..s.initial] == s.plan;
  }

  /** What tier-2 planning adds repeats nothing of itself, and of the plan only what could be repeated. */
  lemma RepeatsOnlyRepeatable(req: Request, cfg: Settings, s: State, t: Turn) returns (tool: string)
    requires NoRepeats(s.plan) && forall k :: 0 <= k < |s.plan| ==> s.plan[k] in ToolsOf(s.evidence)
    requires !NoRepeats(AfterTier2(req, cfg, s, t).plan)
    ensures Repeatable(req, cfg, s, tool)
  {
    hide Fit, SelectedTier2, Tier2Names, ToolsOf, Route;
    var shown := Fit(s.evidence, cfg.maxEvidenceChars).value;
    var accepted := SelectedTier2(t.tier2.proposals, Tier2Names(req), shown);
    SelectedIsBounded(t.tier2.proposals, Tier2Names(req), shown);
    tool := SharedEntry(s.plan, accepted);
  }

  lemma SharedEntry(a: seq<string>, b: seq<string>) returns (x: string)
    requires NoRepeats(a) && NoRepeats(b) && !NoRepeats(a + b)
    ensures x in a && x in b
  {
    var ab := a + b;
    var i, j :| 0 <= i < j < |ab| && ab[i] == ab[j];
    x := ab[i];
    assert i < |a| <= j && b[j - |a|] == x;
  }

  /** Answering with such a tool repeats it. */
  lemma AnswerRepeats(req: Request, cfg: Settings, s: State, t: Turn, tool: string)
    requires Repeatable(req, cfg, s, tool) && t.tier2 == Proposed([Step(tool)])
    ensures AfterTier2(req, cfg, s, t).plan == s.plan + [tool] && !NoRepeats(s.plan + [tool])
  {
    hide Fit, Tier2Names, ToolsOf, SelectedTier2;
    OneProposalIsTaken(tool, Tier2Names(req), Fit(s.evidence, cfg.maxEvidenceChars).value);
    var k :| 0 <= k < |s.plan| && s.plan[k] == tool;
    assert (s.plan + [tool])[k] == (s.plan + [tool])[|s.plan|];
  }

  /**
   * When a run reaches tier-2 planning its plan repeats nothing, and some answer makes it name a tool
   * twice exactly when a collected tier-2 candidate has all its evidence dropped by the budget.
   */
  lemma ToolCanRepeatExactlyWhen(req: Request, cfg: Settings, env: nat -> Turn, n: nat)
    requires cfg.maxSteps >= 1 && After(req, cfg, env, n).phase == At(PlanTier2)
    ensures NoRepeats(After(req, cfg, env, n).plan)
    ensures (exists t: Turn :: !NoRepeats(AfterTier2(req, cfg, After(req, cfg, env, n), t).plan)) <==>
            exists tool :: Repeatable(req, cfg, After(req, cfg, env, n), tool)
  {
    hide After, AfterTier2, Repeatable;
    var s := After(req, cfg, env, n);
    PlannedAtTier2(req, cfg, env, n);
    if t: Turn :| !NoRepeats(AfterTier2(req, cfg, s, t).plan) {
      var tool := RepeatsOnlyRepeatable(req, cfg, s, t);
    }
    if tool :| Repeatable(req, cfg, s, tool) {
      var t := env(n).(tier2 := Proposed([Step(tool)]));
      AnswerRepeats(req, cfg, s, t, tool);
      assert !NoRepeats(AfterTier2(req, cfg, s, t).plan);
    }
  }

  /**
   * In any run, whatever the models answer, a plan that names a tool twice came out of a tier-2
   * planning that was shown none of that tool's evidence, and the request offers the tool in both tiers.
   */
  lemma {:induction false} ToolRepeatsOnlyWhenItsEvidenceWasDropped(req: Request, cfg: Settings, env: nat -> Turn,
      n: nat)
    returns (m: nat, tool: string)
    requires cfg.maxSteps >= 1 && !NoRepeats(After(req, cfg, env, n).plan)
    ensures m < n && After(req, cfg, env, m).phase == At(PlanTier2)
    ensures Repeatable(req, cfg, After(req, cfg, env, m), tool)
    ensures tool in InitialNames(req) && tool in Tier2Names(req)
  {
    hide Next, AfterTier2, Repeatable, Tier2Names, InitialNames;
    assert n > 0;
    var s, t := After(req, cfg, env, n - 1), env(n - 1);
    if !NoRepeats(s.plan) {
      m, tool := ToolRepeatsOnlyWhenItsEvidenceWasDropped(req, cfg, env, n - 1);
    } else {
      m := n - 1;
      ShapeAlways(req, cfg, env, n - 1);
      PlanChangesOnlyAtTier2(req, cfg, s, t);
      PlannedAtTier2(req, cfg, env, m);
      tool := RepeatsOnlyRepeatable(req, cfg, s, t);
      RepeatableIsInBothTiers(req, cfg, s, tool);
    }
  }

  lemma RepeatableIsInBothTiers(req: Request, cfg: Settings, s: State, tool: string)
    requires Repeatable(req, cfg, s, tool)
    requires forall k :: 0 <= k < |s.plan| ==> s.plan[k] in StaticTools(req.platform) + InitialNames(req)
    ensures tool in InitialNames(req) && tool in Tier2Names(req)
  {
    hide Dropped, InitialNames, Tier2Names;
    CandidatesAreCustom(req, tool);
    if tool in StaticTools(req.platform) {
      WindowsToolsAreNotCustom(tool);
    }
  }

  /** Only tier-2 planning can make a plan without repeats into one with repeats. */
  lemma PlanChangesOnlyAtTier2(req: Request, cfg: Settings, s: State, t: Turn)
    requires cfg.maxSteps >= 1 && Ready(s) && Shape(req, cfg, s) && NoRepeats(s.plan)
    ensures s.phase == At(PlanTier2) ==> Next(req, cfg, s, t) == AfterTier2(req, cfg, s, t)
    ensures NoRepeats(Next(req, cfg, s, t).plan) || s.phase == At(PlanTier2)
  {
    hide Verified, Sanitized, AfterCollect, AfterTier2, Fit, Validated, Visited, PlanBounded, NoRepeats;
    if s.phase == At(Collect) {
      CollectFrame(req, cfg, s, t);
    } else if s.phase == At(MakePlan) && t.plan.Some? {
      SanitizedIsBounded(t.plan.value, InitialLimit(cfg), InitialNames(req), req.platform);
    }
  }
}
