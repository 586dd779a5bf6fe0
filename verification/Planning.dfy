/** Bounding what the planner model proposes, and dropping assessment entries that cite no evidence. */
module Planning {
  import opened Catalog
  import opened EvidenceBudget
  import opened Sequences

  const INITIAL_TRIAGE_MAX_STEPS := 3
  const MAX_TIER2_STEPS := 2

  // ----- reference definitions -----

  /** The first `limit` different allowed entries, in order. */
  function FirstAllowed(xs: seq<string>, allowed: set<string>, limit: nat): seq<string> {
    Prefix(Distinct(Keep(xs, allowed)), limit)
  }

  lemma FirstAllowedProperties(xs: seq<string>, allowed: set<string>, limit: nat)
    ensures var r := FirstAllowed(xs, allowed, limit);
            |r| <= limit && NoRepeats(r) && forall x :: x in r ==> x in xs && x in allowed
  {
    KeepOnlyAllowed(xs, allowed);
    DistinctHasNoRepeats(Keep(xs, allowed));
  }

  /** Reading one more entry only ever extends the selection. */
  lemma FirstAllowedGrows(xs: seq<string>, i: nat, allowed: set<string>, limit: nat)
    requires i < |xs|
    ensures var before, after := FirstAllowed(xs[..i], allowed, limit), FirstAllowed(xs[..i + 1], allowed, limit);
            after == if xs[i] in allowed && xs[i] !in before && |before| < limit then before + [xs[i]] else before
  {
    assert xs[..i + 1][..i] == xs[..i];
    var kept := Keep(xs[..i], allowed);
    assert (kept + [xs[i]])[..|kept|] == kept;
    assert kept + [] == kept;
  }

  /** Once full, the selection no longer depends on what follows. */
  lemma {:induction false} FullSelectionIsFinal(xs: seq<string>, i: nat, allowed: set<string>, limit: nat)
    requires i <= |xs| && |FirstAllowed(xs[..i], allowed, limit)| == limit
    ensures FirstAllowed(xs, allowed, limit) == FirstAllowed(xs[..i], allowed, limit)
    decreases |xs| - i
  {
    if i < |xs| {
      FirstAllowedGrows(xs, i, allowed, limit);
      FullSelectionIsFinal(xs, i + 1, allowed, limit);
    } else {
      assert xs[..i] == xs;
    }
  }

  // ----- which entries are taken -----

  /** Entry i is allowed and did not occur before. */
  ghost predicate IsFirst(xs: seq<string>, i: nat, allowed: set<string>) {
    i < |xs| && xs[i] in allowed && xs[i] !in xs[..i]
  }

  /** ks are the positions, in order, of all such entries. */
  ghost predicate AreFirsts(xs: seq<string>, allowed: set<string>, ks: seq<nat>) {
    && (forall n :: 0 <= n < |ks| ==> IsFirst(xs, ks[n], allowed))
    && (forall m, n :: 0 <= m < n < |ks| ==> ks[m] < ks[n])
    && (forall i: nat :: IsFirst(xs, i, allowed) ==> i in ks)
  }

  /** r holds the first `limit` of those entries. */
  ghost predicate TakesFirst(xs: seq<string>, allowed: set<string>, limit: nat, r: seq<string>) {
    exists ks: seq<nat> ::
      && AreFirsts(xs, allowed, ks)
      && |r| == (if |ks| < limit then |ks| else limit)
      && forall n :: 0 <= n < |r| ==> r[n] == xs[ks[n]]
  }

  lemma FirstAllowedTakes(xs: seq<string>, allowed: set<string>, limit: nat)
    ensures TakesFirst(xs, allowed, limit, FirstAllowed(xs, allowed, limit))
  {
    hide AreFirsts;
    var ks := FirstsOfDistinct(xs, allowed);
  }

  lemma FirstLocally(xs: seq<string>, n: nat, allowed: set<string>)
    requires n <= |xs|
    ensures forall i: nat :: i < n ==> (IsFirst(xs[..n], i, allowed) <==> IsFirst(xs, i, allowed))
    ensures forall i: nat :: IsFirst(xs[..n], i, allowed) ==> i < n
    ensures forall i: nat :: IsFirst(xs, i, allowed) ==> i < |xs|
  {
    assert forall i: nat :: i < n ==> xs[..n][..i] == xs[..i];
  }

  lemma OneMoreFirst(xs: seq<string>, ks: seq<nat>, allowed: set<string>)
    requires xs != [] && AreFirsts(xs[..|xs| - 1], allowed, ks)
    ensures AreFirsts(xs, allowed, if IsFirst(xs, |xs| - 1, allowed) then ks + [|xs| - 1] else ks)
  {
    hide IsFirst;
    var last := |xs| - 1;
    FirstLocally(xs, last, allowed);
    forall n | 0 <= n < |ks| ensures ks[n] < last && IsFirst(xs, ks[n], allowed) {
      assert IsFirst(xs[..last], ks[n], allowed);
    }
    forall i: nat | IsFirst(xs, i, allowed) ensures i in ks || i == last {
      assert i < last ==> IsFirst(xs[..last], i, allowed);
    }
  }

  lemma OneMoreDistinct(xs: seq<string>, allowed: set<string>)
    requires xs != []
    ensures var last := |xs| - 1;
            var before := Distinct(Keep(xs[..last], allowed));
            Distinct(Keep(xs, allowed)) == if IsFirst(xs, last, allowed) then before + [xs[last]] else before
  {
    var last := |xs| - 1;
    KeepOnlyAllowed(xs[..last], allowed);
    var kept := Keep(xs[..last], allowed);
    assert (kept + [xs[last]])[..|kept|] == kept && kept + [] == kept;
  }

  /** r holds the entries at these positions. */
  ghost predicate AreAt(xs: seq<string>, ks: seq<nat>, r: seq<string>) {
    |r| == |ks| && forall n :: 0 <= n < |r| ==> ks[n] < |xs| && xs[ks[n]] == r[n]
  }

  lemma OneMoreAt(xs: seq<string>, ks: seq<nat>, r: seq<string>)
    requires xs != [] && AreAt(xs[..|xs| - 1], ks, r)
    ensures AreAt(xs, ks, r) && AreAt(xs, ks + [|xs| - 1], r + [xs[|xs| - 1]])
  {
  }

  lemma NoFirsts(allowed: set<string>)
    ensures AreFirsts([], allowed, []) && AreAt([], [], Distinct(Keep([], allowed)))
  {
  }

  lemma {:induction false} FirstsOfDistinct(xs: seq<string>, allowed: set<string>) returns (ks: seq<nat>)
    ensures AreFirsts(xs, allowed, ks)
    ensures AreAt(xs, ks, Distinct(Keep(xs, allowed)))
  {
    hide *;
    ks := [];
    if xs == [] {
      NoFirsts(allowed);
    } else {
      var last := |xs| - 1;
      ks := FirstsOfDistinct(xs[..last], allowed);
      OneMoreAt(xs, ks, Distinct(Keep(xs[..last], allowed)));
      OneMoreFirst(xs, ks, allowed);
      OneMoreDistinct(xs, allowed);
      if IsFirst(xs, last, allowed) {
        ks := ks + [last];
      }
    }
  }

  // ----- the smallest name, as Python orders strings -----

  ghost predicate LexLe(a: string, b: string) {
    a == "" || (b != "" && (a[0] < b[0] || (a[0] == b[0] && LexLe(a[1..], b[1..]))))
  }

  lemma {:induction false} LexTransitive(a: string, b: string, c: string)
    requires LexLe(a, b) && LexLe(b, c)
    ensures LexLe(a, c)
  {
    if a != "" && a[0] == b[0] == c[0] {
      LexTransitive(a[1..], b[1..], c[1..]);
    }
  }

  lemma {:induction false} LexTotal(a: string, b: string)
    ensures LexLe(a, b) || LexLe(b, a)
    ensures LexLe(a, b) && LexLe(b, a) ==> a == b
  {
    if a != "" && b != "" && a[0] == b[0] {
      LexTotal(a[1..], b[1..]);
      assert a == [a[0]] + a[1..] && b == [b[0]] + b[1..];
    }
  }

  ghost predicate IsMin(name: string, names: set<string>) {
    name in names && forall other :: other in names ==> LexLe(name, other)
  }

  lemma {:induction false} MinExists(names: set<string>)
    requires names != {}
    ensures exists name :: IsMin(name, names)
  {
    var name :| name in names;
    LexTotal(name, name);
    if names == {name} {
      assert IsMin(name, names);
    } else {
      MinExists(names - {name});
      var other :| IsMin(other, names - {name});
      LexTotal(name, other);
      if LexLe(name, other) {
        forall o | o in names ensures LexLe(name, o) {
          if o != name { LexTransitive(name, other, o); }
        }
        assert IsMin(name, names);
      } else {
        assert IsMin(other, names);
      }
    }
  }

  ghost function MinName(names: set<string>): (name: string)
    requires names != {}
    ensures IsMin(name, names)
  {
    MinExists(names);
    var name :| IsMin(name, names);
    name
  }

  // ----- sanitize_plan -----

  ghost function Sanitized(plan: seq<string>, maxSteps: nat, names: set<string>, platform: Platform): seq<string> {
    var steps := FirstAllowed(plan, StaticTools(platform) + names, maxSteps);
    if steps != [] then steps
    else if platform == Windows then Prefix(BASELINE_TOOLS, maxSteps)
    else if names != {} then [MinName(names)]
    else []
  }

  /**
   * The proposed entries that are allowed, each once, as far as there is room; without any, the baseline on
   * Windows, else the least artifact, else nothing.
   */
  ghost predicate SanitizesTo(plan: seq<string>, maxSteps: nat, names: set<string>, platform: Platform,
                              steps: seq<string>)
  {
    if exists step :: step in plan && (step in names || (platform == Windows && step in WINDOWS_TOOLS)) then
      TakesFirst(plan, StaticTools(platform) + names, maxSteps, steps)
    else if platform == Windows then
      steps <= BASELINE_TOOLS && |steps| == if maxSteps < |BASELINE_TOOLS| then maxSteps else |BASELINE_TOOLS|
    else if names != {} then |steps| == 1 && IsMin(steps[0], names)
    else steps == []
  }

  lemma SanitizedIs(plan: seq<string>, maxSteps: nat, names: set<string>, platform: Platform)
    requires maxSteps >= 1
    ensures SanitizesTo(plan, maxSteps, names, platform, Sanitized(plan, maxSteps, names, platform))
  {
    hide TakesFirst, IsMin;
    var allowed := StaticTools(platform) + names;
    FirstAllowedTakes(plan, allowed, maxSteps);
    EmptyExactlyWhen(plan, allowed, maxSteps);
    assert forall step :: step in allowed <==> step in names || (platform == Windows && step in WINDOWS_TOOLS);
  }

  lemma EmptyExactlyWhen(xs: seq<string>, allowed: set<string>, limit: nat)
    requires limit >= 1
    ensures FirstAllowed(xs, allowed, limit) == [] <==> forall x :: x in xs ==> x !in allowed
  {
    KeepOnlyAllowed(xs, allowed);
    var r := Distinct(Keep(xs, allowed));
    if r != [] {
      assert r[0] in r;
    }
  }

  method FindMin(names: set<string>) returns (name: string)
    requires names != {}
    ensures name == MinName(names)
  {
    name :| name in names;
    var rest := names - {name};
    LexTotal(name, name);
    while rest != {}
      invariant rest <= names && name in names
      invariant forall o :: o in names - rest ==> LexLe(name, o)
      decreases |rest|
    {
      var other :| other in rest;
      LexTotal(name, other);
      LexTotal(other, other);
      var smaller := StringLess(other, name);
      if smaller {
        forall o | o in names - rest ensures LexLe(other, o) { LexTransitive(other, name, o); }
        name := other;
      }
      rest := rest - {other};
    }
    LexTotal(name, MinName(names));
  }

  method StringLess(a: string, b: string) returns (less: bool)
    ensures less ==> LexLe(a, b)
    ensures !less ==> LexLe(b, a)
  {
    var i := 0;
    while i < |a| && i < |b| && a[i] == b[i]
      invariant i <= |a| && i <= |b|
      invariant LexLe(a, b) == LexLe(a[i..], b[i..]) && LexLe(b, a) == LexLe(b[i..], a[i..])
    {
      i := i + 1;
    }
    less := i < |b| && (i == |a| || a[i] < b[i]);
  }

  method SanitizePlan(plan: seq<string>, maxSteps: nat, names: set<string>, platform: Platform)
    returns (steps: seq<string>)
    requires maxSteps >= 1
    ensures steps == Sanitized(plan, maxSteps, names, platform)
    ensures SanitizesTo(plan, maxSteps, names, platform, steps)
  {
    hide SanitizesTo, Keep, Distinct, LexLe;
    StartsEmpty(StaticTools(platform) + names, maxSteps);
    var allowed := StaticTools(platform) + names;
    steps := [];
    var seen: set<string> := {};
    for i := 0 to |plan|
      invariant steps == FirstAllowed(plan[..i], allowed, maxSteps) && |steps| < maxSteps
      invariant seen == set step | step in steps
    {
      FirstAllowedGrows(plan, i, allowed, maxSteps);
      if plan[i] !in allowed || plan[i] in seen {
        continue;
      }
      steps := steps + [plan[i]];
      seen := seen + {plan[i]};
      if |steps| >= maxSteps {
        FullSelectionIsFinal(plan, i + 1, allowed, maxSteps);
        break;
      }
    }
    assert plan[..|plan|] == plan;
    if steps == [] && platform == Windows {
      steps := Prefix(BASELINE_TOOLS, maxSteps);
    }
    if steps == [] && names != {} {
      var tool := FindMin(names);
      steps := [tool];
    }
    SanitizedIs(plan, maxSteps, names, platform);
  }

  lemma StartsEmpty(allowed: set<string>, limit: nat)
    ensures FirstAllowed([], allowed, limit) == []
  {
  }

  /** A sanitized plan is short, free of repeats and made of tools the platform or the request allows. */
  lemma SanitizedIsBounded(plan: seq<string>, maxSteps: nat, names: set<string>, platform: Platform)
    requires maxSteps >= 1
    ensures var steps := Sanitized(plan, maxSteps, names, platform);
            && |steps| <= maxSteps
            && NoRepeats(steps)
            && forall step :: step in steps ==> step in StaticTools(platform) + names
  {
    FirstAllowedProperties(plan, StaticTools(platform) + names, maxSteps);
    forall step | step in BASELINE_TOOLS ensures step in WINDOWS_TOOLS {
    }
    BaselineHasNoRepeats();
  }

  lemma BaselineHasNoRepeats()
    ensures NoRepeats(BASELINE_TOOLS)
  {
    var lengths := [14, 24, 16, 23, 18, 30];
    assert |BASELINE_TOOLS| == 6 && forall i :: 0 <= i < 6 ==> |BASELINE_TOOLS[i]| == lengths[i];
  }

  /** A plan comes out empty exactly when the target is not Windows and has no initial artifact. */
  lemma SanitizedEmptyExactlyWhen(plan: seq<string>, maxSteps: nat, names: set<string>, platform: Platform)
    requires maxSteps >= 1
    ensures Sanitized(plan, maxSteps, names, platform) == [] <==> platform != Windows && names == {}
  {
    NothingAllowed(plan);
    assert platform != Windows && names == {} ==> StaticTools(platform) + names == {};
  }

  // ----- tier 2 selection -----

  /** A proposal that is not a step object is `None`. */
  datatype Proposal = Step(tool: string) | NotAStep

  function ProposedTools(proposals: seq<Proposal>): (tools: seq<string>)
  {
    if proposals == [] then []
    else
      var last := proposals[|proposals| - 1];
      ProposedTools(proposals[..|proposals| - 1]) + if last.Step? then [last.tool] else []
  }

  /** At most two different candidates that the evidence shown does not already cover. */
  function SelectedTier2(proposals: seq<Proposal>, candidates: set<string>, shown: seq<Item>): seq<string> {
    FirstAllowed(ProposedTools(proposals), candidates - ToolsOf(shown), MAX_TIER2_STEPS)
  }

  function ToolsOf(items: seq<Item>): set<string> {
    set item | item in items :: item.tool
  }

  lemma SelectedIsBounded(proposals: seq<Proposal>, candidates: set<string>, shown: seq<Item>)
    ensures var r := SelectedTier2(proposals, candidates, shown);
            && |r| <= MAX_TIER2_STEPS && NoRepeats(r)
            && forall tool :: tool in r ==> tool in candidates && tool !in ToolsOf(shown)
  {
    FirstAllowedProperties(ProposedTools(proposals), candidates - ToolsOf(shown), MAX_TIER2_STEPS);
  }

  /** What is shown comes from what was collected. */
  lemma ShownWasCollected(evidence: seq<Item>, maxChars: int)
    requires Fit(evidence, maxChars).Ok?
    ensures ToolsOf(Fit(evidence, maxChars).value) <= ToolsOf(evidence)
  {
    var ks := FitIsMaximalSelection(evidence, maxChars);
    hide Fit;
    var shown := Fit(evidence, maxChars).value;
    forall item | item in shown ensures item.tool in ToolsOf(evidence) {
      var i :| 0 <= i < |shown| && shown[i] == item;
      assert Metadata(shown[i]) == Metadata(evidence[ks[i]]);
      assert evidence[ks[i]] in evidence;
    }
  }

  /** A single proposal that is an open candidate is taken. */
  lemma OneProposalIsTaken(tool: string, candidates: set<string>, shown: seq<Item>)
    requires tool in candidates && tool !in ToolsOf(shown)
    ensures SelectedTier2([Step(tool)], candidates, shown) == [tool]
  {
    var proposals := [Step(tool)];
    assert proposals[..0] == [] && ProposedTools([]) == [];
    assert ProposedTools(proposals) == [tool];
    assert [tool][..0] == [] && Keep([], candidates - ToolsOf(shown)) == [];
    assert Keep([tool], candidates - ToolsOf(shown)) == [tool];
    assert Distinct([tool]) == [tool];
  }

  /** A step for a candidate that no item shown was collected with. */
  predicate IsOpenStep(p: Proposal, candidates: set<string>, shown: seq<Item>) {
    p.Step? && p.tool in candidates && forall item :: item in shown ==> item.tool != p.tool
  }

  /** Proposal i is such a step and was not made before. */
  ghost predicate IsFirstStep(proposals: seq<Proposal>, i: nat, candidates: set<string>, shown: seq<Item>) {
    i < |proposals| && IsOpenStep(proposals[i], candidates, shown) && proposals[i] !in proposals[..i]
  }

  ghost predicate AreFirstSteps(proposals: seq<Proposal>, candidates: set<string>, shown: seq<Item>, ks: seq<nat>) {
    && (forall n :: 0 <= n < |ks| ==> IsFirstStep(proposals, ks[n], candidates, shown))
    && (forall m, n :: 0 <= m < n < |ks| ==> ks[m] < ks[n])
    && (forall i: nat :: IsFirstStep(proposals, i, candidates, shown) ==> i in ks)
  }

  /** The tools of the first two such steps. */
  ghost predicate SelectsTo(proposals: seq<Proposal>, candidates: set<string>, shown: seq<Item>, r: seq<string>) {
    exists ks: seq<nat> ::
      && AreFirstSteps(proposals, candidates, shown, ks)
      && |r| == (if |ks| < 2 then |ks| else 2)
      && forall n :: 0 <= n < |r| ==> proposals[ks[n]] == Step(r[n])
  }

  lemma SelectedIs(proposals: seq<Proposal>, candidates: set<string>, shown: seq<Item>)
    ensures SelectsTo(proposals, candidates, shown, SelectedTier2(proposals, candidates, shown))
  {
    hide IsFirstStep, ToolsOf;
    var ks := FirstStepsOfDistinct(proposals, candidates, shown);
  }

  lemma FirstStepLocally(proposals: seq<Proposal>, n: nat, candidates: set<string>, shown: seq<Item>)
    requires n <= |proposals|
    ensures forall i: nat :: i < n ==>
              (IsFirstStep(proposals[..n], i, candidates, shown) <==> IsFirstStep(proposals, i, candidates, shown))
    ensures forall i: nat :: IsFirstStep(proposals[..n], i, candidates, shown) ==> i < n
    ensures forall i: nat :: IsFirstStep(proposals, i, candidates, shown) ==> i < |proposals|
  {
    hide IsOpenStep;
    assert forall i: nat :: i < n ==> proposals[..n][..i] == proposals[..i];
  }

  lemma LastIsStep(proposals: seq<Proposal>, candidates: set<string>, shown: seq<Item>)
    requires proposals != []
    ensures var last := |proposals| - 1;
            IsFirstStep(proposals, last, candidates, shown) ==> proposals[last].Step?
  {
  }

  lemma OneMoreFirstStep(proposals: seq<Proposal>, ks: seq<nat>, candidates: set<string>, shown: seq<Item>)
    requires proposals != [] && AreFirstSteps(proposals[..|proposals| - 1], candidates, shown, ks)
    ensures var last := |proposals| - 1;
            AreFirstSteps(proposals, candidates, shown,
                          if IsFirstStep(proposals, last, candidates, shown) then ks + [last] else ks)
  {
    hide IsFirstStep;
    var last := |proposals| - 1;
    FirstStepLocally(proposals, last, candidates, shown);
    forall n | 0 <= n < |ks| ensures ks[n] < last && IsFirstStep(proposals, ks[n], candidates, shown) {
      assert IsFirstStep(proposals[..last], ks[n], candidates, shown);
    }
    forall i: nat | IsFirstStep(proposals, i, candidates, shown) ensures i in ks || i == last {
      assert i < last ==> IsFirstStep(proposals[..last], i, candidates, shown);
    }
  }

  /** tools are the tools of the steps at these positions. */
  ghost predicate AreToolsAt(proposals: seq<Proposal>, ks: seq<nat>, tools: seq<string>) {
    |tools| == |ks| && forall n :: 0 <= n < |tools| ==> ks[n] < |proposals| && proposals[ks[n]] == Step(tools[n])
  }

  lemma OneMoreTool(proposals: seq<Proposal>, ks: seq<nat>, tools: seq<string>)
    requires proposals != [] && AreToolsAt(proposals[..|proposals| - 1], ks, tools)
    ensures AreToolsAt(proposals, ks, tools)
    ensures proposals[|proposals| - 1].Step? ==>
              AreToolsAt(proposals, ks + [|proposals| - 1], tools + [proposals[|proposals| - 1].tool])
  {
  }

  lemma NoFirstSteps(candidates: set<string>, shown: seq<Item>)
    ensures AreFirstSteps([], candidates, shown, [])
    ensures AreToolsAt([], [], Distinct(Keep(ProposedTools([]), candidates - ToolsOf(shown))))
  {
  }

  lemma {:induction false} FirstStepsOfDistinct(proposals: seq<Proposal>, candidates: set<string>, shown: seq<Item>)
    returns (ks: seq<nat>)
    ensures AreFirstSteps(proposals, candidates, shown, ks)
    ensures AreToolsAt(proposals, ks, Distinct(Keep(ProposedTools(proposals), candidates - ToolsOf(shown))))
  {
    hide *;
    ks := [];
    if proposals == [] {
      NoFirstSteps(candidates, shown);
    } else {
      var last := |proposals| - 1;
      ks := FirstStepsOfDistinct(proposals[..last], candidates, shown);
      OneMoreTool(proposals, ks, Distinct(Keep(ProposedTools(proposals[..last]), candidates - ToolsOf(shown))));
      OneMoreFirstStep(proposals, ks, candidates, shown);
      LastIsStep(proposals, candidates, shown);
      OneMoreStep(proposals, candidates, shown);
      if IsFirstStep(proposals, last, candidates, shown) {
        ks := ks + [last];
      }
    }
  }

  lemma OneMoreStep(proposals: seq<Proposal>, candidates: set<string>, shown: seq<Item>)
    requires proposals != []
    ensures var open, last := candidates - ToolsOf(shown), |proposals| - 1;
            var before := Distinct(Keep(ProposedTools(proposals[..last]), open));
            Distinct(Keep(ProposedTools(proposals), open)) ==
            if IsFirstStep(proposals, last, candidates, shown) then before + [proposals[last].tool] else before
  {
    var open, last := candidates - ToolsOf(shown), |proposals| - 1;
    var init, p := proposals[..last], proposals[last];
    OpenExactlyWhen(p, candidates, shown);
    KeepOnlyAllowed(ProposedTools(init), open);
    ProposedHas(init);
    KeepOneMore(ProposedTools(init), p, open);
    hide Keep, Distinct, ToolsOf, IsOpenStep;
    var before := Distinct(Keep(ProposedTools(init), open));
    assert before + [] == before;
  }

  lemma KeepOneMore(tools: seq<string>, p: Proposal, open: set<string>)
    ensures var kept, more := Keep(tools, open), Keep(tools + if p.Step? then [p.tool] else [], open);
            Distinct(more) ==
            Distinct(kept) + if p.Step? && p.tool in open && p.tool !in kept then [p.tool] else []
  {
    var kept := Keep(tools, open);
    assert tools + [] == tools && kept + [] == kept;
    if p.Step? {
      assert (tools + [p.tool])[..|tools|] == tools;
      assert (kept + [p.tool])[..|kept|] == kept;
    }
  }

  lemma OpenExactlyWhen(p: Proposal, candidates: set<string>, shown: seq<Item>)
    ensures IsOpenStep(p, candidates, shown) <==> p.Step? && p.tool in candidates - ToolsOf(shown)
  {
  }

  lemma {:induction false} ProposedHas(proposals: seq<Proposal>)
    ensures forall tool :: tool in ProposedTools(proposals) <==> Step(tool) in proposals
  {
    if proposals != [] {
      ProposedHas(proposals[..|proposals| - 1]);
    }
  }

  method SelectTier2(proposals: seq<Proposal>, candidates: set<string>, shown: seq<Item>)
    returns (accepted: seq<string>)
    ensures accepted == SelectedTier2(proposals, candidates, shown)
    ensures SelectsTo(proposals, candidates, shown, accepted)
  {
    hide SelectsTo, Keep, Distinct, Prefix;
    StartsEmpty(candidates - ToolsOf(shown), MAX_TIER2_STEPS);
    assert ProposedTools(proposals[..0]) == [];
    var existing := ToolsOf(shown);
    var open := candidates - existing;
    accepted := [];
    for i := 0 to |proposals|
      invariant accepted == FirstAllowed(ProposedTools(proposals[..i]), open, MAX_TIER2_STEPS)
      invariant |accepted| < MAX_TIER2_STEPS
      invariant forall tool :: tool in existing <==> tool in ToolsOf(shown) || tool in accepted
    {
      ProposedGrows(proposals, i, open);
      if proposals[i].NotAStep? || proposals[i].tool !in candidates || proposals[i].tool in existing {
        continue;
      }
      accepted := accepted + [proposals[i].tool];
      existing := existing + {proposals[i].tool};
      if |accepted| >= MAX_TIER2_STEPS {
        ProposedFull(proposals, i + 1, open);
        break;
      }
    }
    assert proposals[..|proposals|] == proposals;
    SelectedIs(proposals, candidates, shown);
  }

  lemma ProposedGrows(proposals: seq<Proposal>, i: nat, open: set<string>)
    requires i < |proposals|
    ensures var before := FirstAllowed(ProposedTools(proposals[..i]), open, MAX_TIER2_STEPS);
            var after := FirstAllowed(ProposedTools(proposals[..i + 1]), open, MAX_TIER2_STEPS);
            after == if proposals[i].Step? && proposals[i].tool in open && proposals[i].tool !in before
                        && |before| < MAX_TIER2_STEPS
                     then before + [proposals[i].tool] else before
  {
    assert proposals[..i + 1][..i] == proposals[..i];
    var before, after := ProposedTools(proposals[..i]), ProposedTools(proposals[..i + 1]);
    if proposals[i].Step? {
      assert after[..|before|] == before && after[..|before| + 1] == after;
      FirstAllowedGrows(after, |before|, open, MAX_TIER2_STEPS);
    } else {
      assert after == before;
    }
  }

  lemma ProposedFull(proposals: seq<Proposal>, i: nat, open: set<string>)
    requires i <= |proposals|
    requires |FirstAllowed(ProposedTools(proposals[..i]), open, MAX_TIER2_STEPS)| == MAX_TIER2_STEPS
    ensures FirstAllowed(ProposedTools(proposals), open, MAX_TIER2_STEPS) ==
            FirstAllowed(ProposedTools(proposals[..i]), open, MAX_TIER2_STEPS)
  {
    ProposedPrefix(proposals, i);
    var part, all := ProposedTools(proposals[..i]), ProposedTools(proposals);
    assert all[..|part|] == part;
    FullSelectionIsFinal(all, |part|, open, MAX_TIER2_STEPS);
  }

  lemma {:induction false} ProposedPrefix(proposals: seq<Proposal>, i: nat)
    requires i <= |proposals|
    ensures ProposedTools(proposals[..i]) <= ProposedTools(proposals)
    decreases |proposals|
  {
    if i < |proposals| {
      assert proposals[..|proposals| - 1][..i] == proposals[..i];
      ProposedPrefix(proposals[..|proposals| - 1], i);
    } else {
      assert proposals[..i] == proposals;
    }
  }

  // ----- validate_assessment_evidence -----

  datatype Finding = Finding(id: string, severity: string, refs: seq<string>)
  datatype Ioc = Ioc(value: string, ref: string)
  datatype Assessment = Assessment(severity: string, findings: seq<Finding>, iocs: seq<Ioc>, limitations: seq<string>)

  function Ids(items: seq<Item>): seq<string> {
    seq(|items|, i requires 0 <= i < |items| => items[i].id)
  }

  predicate Grounded(f: Finding, ids: seq<string>) {
    f.refs != [] && forall ref :: ref in f.refs ==> ref in ids
  }

  function GroundedFindings(findings: seq<Finding>, ids: seq<string>): seq<Finding> {
    if findings == [] then []
    else GroundedFindings(findings[..|findings| - 1], ids) +
         if Grounded(findings[|findings| - 1], ids) then [findings[|findings| - 1]] else []
  }

  function GroundedIocs(iocs: seq<Ioc>, ids: seq<string>): seq<Ioc> {
    if iocs == [] then []
    else GroundedIocs(iocs[..|iocs| - 1], ids) +
         if iocs[|iocs| - 1].ref in ids then [iocs[|iocs| - 1]] else []
  }

  function Validated(a: Assessment, items: seq<Item>): Assessment {
    a.(findings := GroundedFindings(a.findings, Ids(items)), iocs := GroundedIocs(a.iocs, Ids(items)))
  }

  method ValidateAssessment(a: Assessment, items: seq<Item>) returns (r: Assessment)
    ensures r == Validated(a, items)
  {
    var ids := Ids(items);
    var findings: seq<Finding> := [];
    for i := 0 to |a.findings|
      invariant findings == GroundedFindings(a.findings[..i], ids)
    {
      assert a.findings[..i + 1][..i] == a.findings[..i];
      if Grounded(a.findings[i], ids) {
        findings := findings + [a.findings[i]];
      }
    }
    var iocs: seq<Ioc> := [];
    for i := 0 to |a.iocs|
      invariant iocs == GroundedIocs(a.iocs[..i], ids)
    {
      assert a.iocs[..i + 1][..i] == a.iocs[..i];
      if a.iocs[i].ref in ids {
        iocs := iocs + [a.iocs[i]];
      }
    }
    assert a.findings[..|a.findings|] == a.findings && a.iocs[..|a.iocs|] == a.iocs;
    r := a.(findings := findings, iocs := iocs);
  }

  /** Every reference is the id of an item, and there is one. */
  predicate CitesItems(refs: seq<string>, items: seq<Item>) {
    refs != [] && forall ref :: ref in refs ==> exists item :: item in items && item.id == ref
  }

  /** Findings survive in their order, each as often as it was given, exactly if they cite items alone. */
  lemma {:induction false} FindingsKept(a: Assessment, items: seq<Item>) returns (ks: seq<nat>)
    ensures var kept := Validated(a, items).findings;
            && |ks| == |kept| && (forall n :: 0 <= n < |ks| ==> ks[n] < |a.findings| && a.findings[ks[n]] == kept[n])
            && (forall m, n :: 0 <= m < n < |ks| ==> ks[m] < ks[n])
            && (forall i :: 0 <= i < |a.findings| ==> (CitesItems(a.findings[i].refs, items) <==> i in ks))
    decreases |a.findings|
  {
    ks := [];
    if a.findings != [] {
      var last := |a.findings| - 1;
      ks := FindingsKept(a.(findings := a.findings[..last]), items);
      GroundedExactlyWhen(a.findings[last], items);
      hide CitesItems, Grounded, Ids;
      if CitesItems(a.findings[last].refs, items) {
        ks := ks + [last];
      }
    }
  }

  lemma GroundedExactlyWhen(f: Finding, items: seq<Item>)
    ensures Grounded(f, Ids(items)) <==> CitesItems(f.refs, items)
  {
    forall ref ensures ref in Ids(items) <==> exists item :: item in items && item.id == ref {
      IdsHave(items, ref);
    }
    hide Ids;
  }

  lemma IdsHave(items: seq<Item>, ref: string)
    ensures ref in Ids(items) <==> exists item :: item in items && item.id == ref
  {
    if item :| item in items && item.id == ref {
      var i :| 0 <= i < |items| && items[i] == item;
      assert Ids(items)[i] == ref;
    }
  }

  /** The same for indicators, which cite one item each. */
  lemma {:induction false} IocsKept(a: Assessment, items: seq<Item>) returns (ks: seq<nat>)
    ensures var kept := Validated(a, items).iocs;
            && |ks| == |kept| && (forall n :: 0 <= n < |ks| ==> ks[n] < |a.iocs| && a.iocs[ks[n]] == kept[n])
            && (forall m, n :: 0 <= m < n < |ks| ==> ks[m] < ks[n])
            && (forall i :: 0 <= i < |a.iocs| ==> (CitesItems([a.iocs[i].ref], items) <==> i in ks))
    decreases |a.iocs|
  {
    ks := [];
    if a.iocs != [] {
      var last := |a.iocs| - 1;
      ks := IocsKept(a.(iocs := a.iocs[..last]), items);
      IdsHave(items, a.iocs[last].ref);
      OneCitation(a.iocs[last].ref, items);
      hide CitesItems, Ids;
      if CitesItems([a.iocs[last].ref], items) {
        ks := ks + [last];
      }
    }
  }

  lemma OneCitation(ref: string, items: seq<Item>)
    ensures CitesItems([ref], items) <==> exists item :: item in items && item.id == ref
  {
    assert ref in [ref];
  }

  /** Exactly the grounded entries survive: nothing dangling is kept, nothing grounded is lost. */
  lemma {:induction false} ValidatedKeepsExactlyTheGrounded(a: Assessment, items: seq<Item>)
    ensures forall f :: f in Validated(a, items).findings <==> f in a.findings && Grounded(f, Ids(items))
    ensures forall c :: c in Validated(a, items).iocs <==> c in a.iocs && c.ref in Ids(items)
    decreases |a.findings| + |a.iocs|
  {
    if a.findings != [] {
      ValidatedKeepsExactlyTheGrounded(a.(findings := a.findings[..|a.findings| - 1]), items);
    } else if a.iocs != [] {
      ValidatedKeepsExactlyTheGrounded(a.(iocs := a.iocs[..|a.iocs| - 1]), items);
    }
  }

  lemma ValidatedTwice(a: Assessment, items: seq<Item>)
    ensures Validated(Validated(a, items), items) == Validated(a, items)
  {
    ValidatedKeepsExactlyTheGrounded(a, items);
    AllGroundedStay(Validated(a, items), items);
  }

  lemma {:induction false} AllGroundedStay(a: Assessment, items: seq<Item>)
    requires forall f :: f in a.findings ==> Grounded(f, Ids(items))
    requires forall c :: c in a.iocs ==> c.ref in Ids(items)
    ensures Validated(a, items) == a
    decreases |a.findings| + |a.iocs|
  {
    hide Grounded, Ids;
    if a.findings != [] {
      AllGroundedStay(a.(findings := a.findings[..|a.findings| - 1]), items);
    } else if a.iocs != [] {
      AllGroundedStay(a.(iocs := a.iocs[..|a.iocs| - 1]), items);
    }
  }
}
