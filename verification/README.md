# Verified models of the inventory platform's bounded protocols

Dafny models of the parts of the platform whose correctness spans several functions or a whole run:
the DeepAgent investigation workflow, its job service, the portal's session refresh and WebSocket
reconnection, client addresses through the proxy chain, network diagrams, the undo history, the
organisation closure, the report markdown parser, the audit chain and the enrolment token.

`dafny verify dfyconfig.toml` checks everything.

## How the models are built

Code that works step by step is a method with its loops (or a class whose fields are the module's or
component's state), proved equal to a specification function; what the code is for is then proved about
that function, over every input, run or interleaving.

- `Catalog`, `Planning`, `Expansions`, `EvidenceBudget`, `Bridge`, `Workflow`: one investigation. A node of
  the graph is a function of the state and of a `Turn`, which holds everything from outside (language model
  answers, bridge answers, failures, clock). The bridge adapter is a class that records every call.
- `Runs`, `RunEvidence`, `RunResults`: theorems over all runs, that is over all sequences of turns `env: nat -> Turn`.
  `RunExamples` constructs runs that do happen, which makes several conditions exact.
- `Callback`, `JobService`, `JobProgress`, `Delivery`: result reporting with retries, the job table with its
  semaphore, and the two joined: many jobs sending into one log of posts. Each event is what happens between
  two `await`s, so a list of events is an interleaving.
- `TokenRefresh`: the portal's single-flight refresh over event-loop steps. `Reconnect`, `ConnectAttempts`: the
  reconnect refs, and the attempts with their awaits that move them.
- `ProxyChain`: the portal's header composed with the backend's parser.
- `Graph`, `Topology`, `TemplateLinks`, `LevelSample`, `SampleLayout`, `SampleReach`: diagrams, their links and
  layout, and what the links reach.
- `CanvasHistory`, `OrgClosure`, `Markdown`, `AuditChain`, `EnrollToken`: one component each.
- `Common`, `Sequences`, `Numerals`, `Json`: shared vocabulary.

Instants are integers in microseconds of UTC. JSON numbers are integers. Text is a sequence of characters.

## Where the code and what is said of it differ

The models follow the code. Each difference has its exact condition proved.

- `fit_evidence_budget` can raise: a truncated item's preview that is neither text nor a list cannot be sliced
  (`FitRaisesExactlyWhen`, `NeverRaisesExactlyWhen`; inputs: `DictPreviewRaises`,
  `NumberPreviewRaises`; a run: `RunFailsFitting`). Its result overruns only a
  budget of one character (`FitStaysWithinBudget`).
- An event id that holds a comma reaches the bridge as several ids (`PiecesAreTextsExactlyWhen`).
- A case range may be just short of 32 days, not 31 (`ValidateRange`).
- A tier that the request never mentions falls back to a fixed list that ignores `supported_platforms`, so an
  artifact declared for Linux alone can be collected on Windows (`FallbackIgnoresDeclaration`,
  `PlatformDeclarationRespectedExactlyWhen`).
- A macOS target never gets past planning (`WithoutToolsNoRunFinishes`, `MacOSHasNoInitialArtifact`,
  `RunCanFinishExactlyWhen`).
- Evidence ids repeat when event-log details are followed by further steps (`IdsDistinctExactlyWhen`). A request
  rules this out exactly off Windows, or with one step and no tier-2 artifact (`IdsNeverRepeatExactlyWhen`; runs:
  `FinishedRunRepeatsIds`, `OneStepRunRepeatsIds`).
- Tier-2 planning looks at the reduced evidence, so a tool whose evidence was dropped may run again
  (`ToolCanRepeatExactlyWhen`). A request rules this out exactly if no artifact is offered in both tiers
  (`PlansNeverRepeatExactlyWhen`; a run: `TriageSignedAsTier2`).
- The level-2 template hangs devices on the last switch but links only the first (`LevelTwoReachesExactly`); a
  level sample is therefore not always connected (`SampleIsConnectedExactlyWhen`).
- Of saved links that all point to missing nodes nothing is shown, not the automatic links; once that empty list
  is saved, the next load shows the automatic links (`TakenOverTwice`; a case: `GoneLinksGiveWayLater`).
- A socket that opened after an unmount would still move the URL rotation; only closes are guarded
  (`LateOpenMovesExactlyWhen`). Such a socket arises exactly if an unmount falls between an attempt's check of
  the generation and the reading of its token (`LateSocketExactlyWhen`; a case: `LocksAfterUnmount`).
- Removing the last audit row, or one that repeats its neighbour, goes unnoticed (`RemovedRowIsReported`).
- A row rewritten with its own hash goes unnoticed once the next row's link follows it, because a row's hash does not
  cover its link (`RewrittenRowIsUnnoticedExactlyWhen`).
- The anchor described as a hash of the whole chain is the last row's hash: any history before the last append can
  be replaced under an unchanged anchor (`SameAnchorExactlyWhen`, `HistoryCanBeReplaced`).
- A result answered 200 with an unreadable body counts as not delivered and is posted again
  (`TakenOnceExactlyWhen`; a case: `UnreadableBodies`).
- Overlapping appends break the audit chain: nothing holds the last hash between its reading and the insertion
  (`IntactExactlyWithoutOverlap`; a case: `TwoOverlappingAppends`).
- A refresh made only by data routes reaches no cookie (`RefreshReachesCookieExactlyWhen`).
- An enrolment token's body has 22 to 30 characters, not always 22 (`BodyLength`).

## Model

| member | source | states |
|---|---|---|
| Runs.EveryCallIsConfined | deepagent/deepagent/mcp_client.py:263-370 | over every run, each call that reaches the bridge carries, value by value, the request's client and own organisation and a tool on the platform's list (off Windows only verification and artifacts); an artifact is signed and allowed and asked for by name, helpers get only arguments they declare with bounded paging, triage the case range and 100 rows; a detail call a forward window of at most an hour inside the case range, 50 rows, and ids, read back from their text, that a triage result in the evidence reported |
| Runs.EveryRunEnds | deepagent/deepagent/runner.py:67-70 | every run ends within min(max_steps, 3) + 7 visits, below the recursion limit max_steps + 8 |
| Runs.FinishedRunRoute | deepagent/deepagent/graph.py:219-227 | a finished run is verify, plan, n1 collects, tier-2 planning once, n2 collects, assess, render: 5 + n1 + n2 visits with n1 at most min(max_steps, 3), n2 at most 2 |
| Runs.WithoutToolsNoRunFinishes | deepagent/deepagent/analysis_model.py:312-339 | a target without fixed tools and initial artifacts never gets beyond planning, whatever the planner says |
| Runs.MacOSHasNoInitialArtifact | deepagent/deepagent/catalog.py:92-96 | macOS is such a target for every request |
| Runs.RunGraph | deepagent/deepagent/graph.py:263-283 | running the compiled graph from a fresh adapter never hits the recursion limit and ends in the state machine's state, with the adapter's calls those of the state |
| Runs.RunNode | deepagent/deepagent/graph.py:67-270 | the node that runs is the one the phase names, and its effect on state and adapter is the state machine's step |
| Runs.CallsAlwaysLegit | deepagent/deepagent/mcp_client.py:263-370 | inductive invariant: all recorded calls are the verification, a triage, a permitted detail, a fixed helper on Windows or a collectable artifact |
| RunResults.FinishedRunIsMadeOf | deepagent/deepagent/graph.py:67-283 | a finished run verified its client at the first visit; its steps are the planner's sanitized answer of the second and what was selected of the one tier-2 answer; its assessment is the analyst's answer after all steps, kept to the fitted evidence, with all limitations; its report is that over the fitted evidence |
| RunResults.NodeFailsExactlyWhen | deepagent/deepagent/graph.py:67-270 | when each node fails: verification exactly without a row for the client, planning if the planner raises or nothing can be planned, later nodes if the evidence cannot be fitted or the analyst raises; collecting never |
| RunResults.LimitationsAreFixedLabels | deepagent/deepagent/models.py:264-327 | whatever text the models return, a run's limitations are drawn from nine fixed labels |
| Runs.ShapeAlways | deepagent/deepagent/graph.py:162-227 | inductive invariant tying the visits so far to the plan, index and tier-2 flag, with the plan's two parts bounded, repeat-free and allowed |
| RunEvidence.IdsDistinctExactlyWhen | deepagent/deepagent/graph.py:383-394 | evidence ids of a finished run differ pairwise exactly when no detail was collected or the event-log step is last in the final plan |
| RunEvidence.ReportCitesOnlyPrintedEvidence | deepagent/deepagent/graph.py:229-262 | findings and indicators of a finished run cite only ids on the very evidence list the report prints, which is within the budget |
| RunEvidence.ToolRepeatsOnlyWhenItsEvidenceWasDropped | deepagent/deepagent/graph.py:110-158 | at any point of any run, a plan that names a tool twice came out of a tier-2 planning that was shown none of that tool's evidence, and the tool is offered in both tiers |
| RunEvidence.ToolCanRepeatExactlyWhen | deepagent/deepagent/graph.py:110-158 | when a run reaches tier-2 planning its plan repeats nothing, and some answer makes it repeat exactly when a collected tier-2 candidate has all its evidence dropped by the budget |
| RunExamples.PlansNeverRepeatExactlyWhen | deepagent/deepagent/graph.py:110-158 | under any settings, no run of a request plans a tool twice exactly when the initial and tier-2 artifacts have none in common |
| RunExamples.PlanRepeatsTool | deepagent/deepagent/graph.py:130-146 | for each artifact offered in both tiers, and any budget, a run that plans it twice |
| RunExamples.TriageSignedAsTier2 | deepagent/deepagent/catalog.py:156-195 | one artifact signed as tier 2 is enough for such a run |
| RunExamples.RunCanFinishExactlyWhen | deepagent/deepagent/graph.py:263-283 | some run finishes exactly when the target is Windows or has an initial artifact |
| RunExamples.IdsNeverRepeatExactlyWhen | deepagent/deepagent/graph.py:383-394 | a caller's check: every finished run has pairwise different evidence ids exactly off Windows, or when only one step is allowed and no tier-2 artifact is offered |
| RunExamples.FinishedRunRepeatsIds | deepagent/deepagent/graph.py:383-394 | for every Windows request and at least two steps, a finished run with a detail whose evidence ids repeat |
| RunExamples.OneStepRunRepeatsIds | deepagent/deepagent/graph.py:383-394 | with one step too, for each tier-2 artifact offered |
| RunEvidence.CallsAreFew | deepagent/deepagent/mcp_client.py:137-180 | every run, failed or not, makes at most 1 + min(max_steps, 3) + 2 + 2 calls, so never more than eight |
| RunEvidence.CollectNeverFails | deepagent/deepagent/graph.py:184-217 | a collect visit never fails the run, loses no evidence and adds the step's own item, whatever the tool does |
| RunEvidence.LayoutAlways | deepagent/deepagent/graph.py:160-217 | inductive invariant: the numbers the evidence ids use, with the overlap that details cause, and an item for every step done |
| Workflow.RunVerify | deepagent/deepagent/graph.py:67-97 | verification and its effect on state and adapter |
| Workflow.RunPlan | deepagent/deepagent/graph.py:99-108 | planning fails on a planner error or an empty sanitized plan, else starts collecting |
| Workflow.RunTier2 | deepagent/deepagent/graph.py:110-158 | tier-2 planning: at most two accepted steps appended, a planner error becomes a limitation, the flag is set in every case |
| Workflow.RunCollect | deepagent/deepagent/graph.py:160-217 | one step adds one item that records what became of its call: data and pagination of a successful answer, else an error and neither, a timeout exactly on a deadline; event logs add a triage item and one item per detail call; then the next node is due |
| Workflow.RunEventLogs | deepagent/deepagent/graph.py:286-412 | triage, expansion and details, with rejection labels kept as limitations |
| Workflow.RunDetails | deepagent/deepagent/graph.py:382-409 | one detail call and one item per accepted expansion, numbered on from the step |
| Workflow.RunAssess | deepagent/deepagent/graph.py:229-242 | the assessment keeps only what cites the fitted evidence and gains the run's limitations |
| Workflow.RunRender | deepagent/deepagent/graph.py:244-270 | the report is rendered from the fitted evidence |
| Workflow.EvidenceIdInjective | deepagent/deepagent/graph.py:164 | ids with different numbers differ, also beyond three digits |
| Workflow.EvidenceIdIs | deepagent/deepagent/graph.py:164 | an evidence id has at least three digits, and they read back as its number |
| Workflow.OneToolCollects | deepagent/deepagent/graph.py:184-217 | the added item records the answer of the step's own call |
| Workflow.EventLogsCollect | deepagent/deepagent/graph.py:286-412 | the triage item, the detail items and the limitations of one event-log step, traced to their answers |
| Workflow.DetailsCollect | deepagent/deepagent/graph.py:382-409 | one call after the other, each with its own item and answer |
| Workflow.SampledIdsAre | deepagent/deepagent/graph.py:342-348 | the ids that details may ask for are the texts of the sampled ids that count as something |
| EvidenceBudget.FitEvidenceBudget | deepagent/deepagent/models.py:330-492 | both loops compute the two passes, item by item: an item that fits after those before it is kept as it is, else its preview, its cut preview or a count; if that list is too long, a fixed note, bare metadata, or nothing |
| EvidenceBudget.FitDecides | deepagent/deepagent/models.py:338-492 | the same item by item, for every budget |
| EvidenceBudget.FitStaysWithinBudget | deepagent/deepagent/models.py:334-341 | a positive budget is kept exactly when it is at least two characters |
| EvidenceBudget.FitIsIdempotent | deepagent/deepagent/models.py:330-492 | fitting a fitted list changes nothing |
| EvidenceBudget.FitIsMaximalSelection | deepagent/deepagent/models.py:461-492 | the result is an order-preserving selection with everything but data unchanged, and no dropped item could be put back anywhere even without data |
| EvidenceBudget.KeptDataIsOriginalOrMarked | deepagent/deepagent/models.py:337-341 | each kept item has its own data, none, or a stub marked as truncated |
| EvidenceBudget.UntouchedExactlyWhenItFits | deepagent/deepagent/models.py:343-355 | for every budget, evidence is returned unchanged exactly when its text fits or there is none |
| EvidenceBudget.FitRaisesExactlyWhen | deepagent/deepagent/models.py:382-411 | the call raises exactly when the evidence is over budget and some truncated item's preview cannot be sliced and does not fit as it is |
| EvidenceBudget.NeverRaisesExactlyWhen | deepagent/deepagent/models.py:382-411 | a caller's check: no budget makes it raise exactly when every truncated item's preview is text, a list or empty |
| EvidenceBudget.DictPreviewRaises | deepagent/deepagent/models.py:382-411 | evidence on which it raises although the adapter's log takes it: a non-empty dict as preview |
| EvidenceBudget.NumberPreviewRaises | deepagent/deepagent/models.py:382-411 | and data marked with something other than True, whose preview the log does not look at |
| RunExamples.LoggedUnsliceableExactlyWhen | deepagent/deepagent/mcp_client.py:182-194 | among data the log takes, exactly those two kinds cannot be sliced |
| RunExamples.RunFailsFitting | deepagent/deepagent/graph.py:110-116 | for every Windows request and budget, a run that fails because fitting raises |
| EvidenceBudget.TextPreviewsNeverRaise | deepagent/deepagent/models.py:382-411 | evidence whose truncated previews are text never makes it raise |
| EvidenceBudget.SerializedLength | deepagent/deepagent/models.py:346-351 | the text's length is the sum of the items' own weights, so only the total matters |
| EvidenceBudget.ItemTextLengthIs | deepagent/deepagent/models.py:346-351 | an item's share of the budget: 103 characters and those of its eight values |
| Json.DumpIsText | deepagent/deepagent/models.py:346-351 | what is measured and previewed is a JSON text of the value, by the grammar of RFC 8259 |
| Json.EscapedTextReadsBack | deepagent/deepagent/models.py:346-351 | escaped text reads back as the text |
| Json.DecimalIs | deepagent/deepagent/models.py:346-351 | numbers are written without superfluous zeros and read back |
| Expansions.ValidateExpansions | deepagent/deepagent/models.py:244-327 | accepted are the expansions of the first two items that the case permits and that are the first to ask for their ids; with the labels and the count of items read |
| Expansions.AcceptedArePermitted | deepagent/deepagent/models.py:244-327 | every accepted expansion has a window that runs forward, for at most 60 minutes, with both ends inside the case range, and only sampled ids, and no two share an id set |
| Expansions.ExaminedIsLeast | deepagent/deepagent/models.py:268-273 | an item is examined exactly if the items before it gave fewer than two accepted |
| Expansions.EachItemIsCounted | deepagent/deepagent/models.py:244-327 | every examined item is either accepted or labelled |
| Expansions.Check | deepagent/deepagent/models.py:201-225 | no objection exactly if the item reads as an expansion that the case permits, and then that expansion |
| Expansions.AcceptableExactlyWhen | deepagent/deepagent/models.py:201-306 | an item meets no objection exactly if it reads as a permitted expansion: zoned ends, a forward window of at most an hour inside the case range, some ids and all of them sampled, a rationale of 1 to 500 characters |
| Expansions.LabelsExactlyWhen | deepagent/deepagent/models.py:278-325 | when each of the six labels for a refused item is given |
| Expansions.AcceptedAreFirstTwo | deepagent/deepagent/models.py:264-314 | the accepted list, in terms of the items alone |
| Expansions.EachLabel | deepagent/deepagent/models.py:268-325 | the label each item gets: none for the first to ask for its ids, a duplicate's for a permitted other, else its objection |
| Planning.SanitizePlan | deepagent/deepagent/analysis_model.py:312-339 | the first different allowed steps as far as there is room; without any the first baseline tools on Windows, else the least artifact name, else nothing |
| Planning.SanitizedIsBounded | deepagent/deepagent/analysis_model.py:312-339 | never more than the limit, no repeats, only tools the platform or the request allows |
| Planning.SanitizedEmptyExactlyWhen | deepagent/deepagent/analysis_model.py:328-339 | empty exactly off Windows without an initial artifact |
| Planning.FindMin | deepagent/deepagent/analysis_model.py:333-339 | the artifact chosen is the least name in Python's order |
| Planning.SelectTier2 | deepagent/deepagent/graph.py:132-146 | the tools of the first two different steps for candidates that no item shown was collected with |
| Planning.SanitizedIs | deepagent/deepagent/analysis_model.py:312-339 | the sanitized plan, in terms of the proposed one alone |
| Planning.SelectedIs | deepagent/deepagent/graph.py:132-146 | the selected steps, in terms of the proposals alone |
| Planning.ValidateAssessment | deepagent/deepagent/analysis_model.py:342-352 | filtering both lists computes the reference |
| Planning.ValidatedKeepsExactlyTheGrounded | deepagent/deepagent/analysis_model.py:342-352 | a finding or indicator survives exactly if it was there and cites only listed ids, a finding at least one |
| Planning.FindingsKept | deepagent/deepagent/analysis_model.py:342-352 | findings survive in order, each as often as given, exactly if they cite items that are shown, and at least one |
| Planning.IocsKept | deepagent/deepagent/analysis_model.py:342-352 | indicators survive in order, exactly if the item they cite is shown |
| Planning.ValidatedTwice | deepagent/deepagent/analysis_model.py:342-352 | validating again removes nothing |
| Catalog.CollectableIsVetted | deepagent/deepagent/catalog.py:134-195 | what can be collected is signed by the request and either in the platform's tables or declared tier 2 for the platform |
| Catalog.OfferedFirstExactlyWhen | deepagent/deepagent/catalog.py:134-170 | what is offered first: the platform's triage artifact, signed for tier 1 unless nothing is |
| Catalog.OfferedAtTier2ExactlyWhen | deepagent/deepagent/catalog.py:173-195 | what is offered at tier 2: what is signed for it or, if nothing is, the platform's two artifacts |
| Catalog.PlatformDeclarationRespectedExactlyWhen | deepagent/deepagent/catalog.py:120-195 | every collectable artifact declares the platform exactly when each one signed under a fallback name does |
| Catalog.FallbackIgnoresDeclaration | deepagent/deepagent/catalog.py:163-164 | a request on which that fails |
| Catalog.ValidateRange | deepagent/deepagent/models.py:21-35 | accepted exactly with zones on both ends, a positive length and less than 32 days, and normalised to UTC |
| Bridge.VelociraptorAdapter.LogToolResult | deepagent/deepagent/mcp_client.py:182-211 | logging an answer raises exactly on data marked truncated with True whose preview has no length |
| Bridge.LoggingRaisesExactlyWhen | deepagent/deepagent/mcp_client.py:182-194 | logging raises exactly on data marked truncated with True whose preview is no text, list or dict |
| Bridge.VelociraptorAdapter.Collect | deepagent/deepagent/mcp_client.py:263-328 | policy checks in order, arguments built key by key, at most one call, long results replaced by a preview, answers the log cannot take raised |
| Bridge.VelociraptorAdapter.CollectCustom | deepagent/deepagent/mcp_client.py:330-370 | an artifact is collected only under a signed name, with fixed arguments |
| Bridge.VelociraptorAdapter.CollectEventLogTriage | deepagent/deepagent/mcp_client.py:376-440 | the fixed triage call, and only metadata of its answer |
| Bridge.VelociraptorAdapter.CollectEventLogDetail | deepagent/deepagent/mcp_client.py:442-513 | one call with exactly the expansion's window, 50 rows and ids that read back from their text, if the bridge offers the tool; its metadata is returned exactly if it succeeded and could be logged |
| Bridge.DetailedGoes | deepagent/deepagent/mcp_client.py:442-513 | a detail operation: table kept, one call exactly if offered, its values, its answer |
| Bridge.TriagedGoes | deepagent/deepagent/mcp_client.py:376-440 | the same for triage |
| Bridge.CollectedGoes | deepagent/deepagent/mcp_client.py:263-370 | the same for helpers and artifacts, with results kept or replaced by a preview of exactly the limit |
| Sequences.PiecesAreTextsExactlyWhen | deepagent/deepagent/mcp_client.py:483-484 | ids joined with commas read back as the ids exactly if none holds a comma |
| Bridge.VelociraptorAdapter.VerifyTarget | deepagent/deepagent/mcp_client.py:213-239 | once the answer is logged, verified only by a row whose client id is exactly the request's, the first such row |
| Bridge.VerifiedGoes | deepagent/deepagent/mcp_client.py:213-239 | verified exactly if the one call succeeded and a row of its answer names the client |
| Bridge.NamesExactlyWhen | deepagent/deepagent/mcp_client.py:233-238 | a row names a client by client_id or, if that is missing or empty, by ClientId |
| Bridge.RowsCome | deepagent/deepagent/mcp_client.py:228-233 | where the rows of an answer come from |
| Bridge.VelociraptorAdapter.LoadTools | deepagent/deepagent/mcp_client.py:115-135 | the tool table is fetched once and cached; a failure caches nothing |
| Bridge.CollectedCallsAtMostOnce | deepagent/deepagent/mcp_client.py:263-370 | any collect makes at most one call, and only for a signed artifact or a fixed helper other than raw event logs |
| Bridge.StaticPagingIsBounded | deepagent/deepagent/mcp_client.py:294-315 | paging stays within 1 to 50 rows from a non-negative offset, and dates go exactly to tools that take both |
| Callback.Execute | deepagent/deepagent/api.py:42-131 | completed exactly if the graph finished and an attempt with the result returned; then exactly one attempt returned and no notice was sent; of a failed job no attempt with the result returned; at most six posts, all with the job's key |
| Callback.PayloadCarries | deepagent/deepagent/runner.py:81-96 | the payload is the report with the tool and the outcome of everything collected |
| Callback.TakenOnceExactlyWhen | deepagent/deepagent/callback.py:126-140 | the backend answers a completed job's posts with 200 once exactly if each such answer's body can be read |
| Callback.UnreadableBodies | deepagent/deepagent/callback.py:126-140 | with unreadable bodies three posts are answered 200 and the submission fails |
| Callback.Run | deepagent/deepagent/runner.py:29-128 | one submission per finished run, none otherwise, within the recursion limit |
| Callback.BackendCallbackClient.Submit | deepagent/deepagent/callback.py:76-116 | nothing is posted without an API key |
| Callback.BackendCallbackClient.SubmitWithRetry | deepagent/deepagent/callback.py:118-140 | stops at the first attempt that returns, and returns exactly if one among three does |
| Callback.SubmissionProperties | deepagent/deepagent/callback.py:118-140 | at most three posts of one payload under one key, exactly one of which returned if any reply lets it and none otherwise |
| Callback.AttemptsAreSubmission | deepagent/deepagent/callback.py:118-140 | a submission is at most three equal requests, each with its reply; the first answered 200 with a readable body is the last |
| Callback.AttemptsRepeat | deepagent/deepagent/callback.py:118-140 | every attempt is the same request, and none but the last returned |
| JobService.AtMostMaxRun | deepagent/deepagent/api.py:42-131 | in every interleaving at most max_concurrent_jobs jobs run or send their failure notice |
| JobService.JobsStartInCreationOrder | deepagent/deepagent/api.py:42-60 | the jobs started are always a prefix of the jobs created |
| JobService.OneJobPerInvestigation | deepagent/deepagent/api.py:175-200 | an investigation has at most one job, and no job is twice in the line |
| JobService.WaitsOnlyWhenFull | deepagent/deepagent/api.py:42-60 | no permit is lost: when no task or woken waiter is due, a job waits only if the maximum runs or sends notices |
| JobProgress.EveryJobCanRun | deepagent/deepagent/api.py:42-60 | no job is ever stuck: from every reachable state some continuation runs any given queued job |
| JobService.StatusOnlyAdvances | deepagent/deepagent/api.py:42-131 | each event moves a status only queued, running, then completed or failed, and no job disappears |
| JobService.InvAlways | deepagent/deepagent/api.py:27-131 | inductive invariant: the line of jobs, and free permits plus jobs running, jobs reporting and woken waiters equal the maximum |
| Delivery.PostsOfEveryJob | deepagent/deepagent/api.py:42-131 | in every interleaving of jobs that post into one log, a completed job has at most three posts, all with one result, and exactly one of them returned; of any other job only a notice can have returned, once; no job has more than six posts |
| Delivery.GoodReplyCompletes | deepagent/deepagent/api.py:56-80 | a running job whose result is answered 200 with a readable body is completed by that one post |
| Delivery.SixPostsAreAttained | deepagent/deepagent/api.py:81-117 | a backend that never answers gets six posts of a job, which fails |
| Delivery.NothingWithoutKey | deepagent/deepagent/callback.py:76-94 | without a key nothing is posted, in any interleaving |
| Delivery.InvAlways | deepagent/deepagent/api.py:56-117 | inductive invariant: each job's status fits its posts and the submission it has under way, and those sending a notice are the jobs the service has reporting |
| Delivery.AtMostMaxRun | deepagent/deepagent/api.py:42-131 | posts and retries included, at most max_concurrent_jobs jobs run or send a notice |
| JobService.Api.CreateInvestigation | deepagent/deepagent/api.py:175-200 | scanning the table returns the existing job or creates one job and one task |
| JobService.Api.TaskRuns | deepagent/deepagent/api.py:42-60 | a task takes a free permit only when nobody waits, else joins the line |
| JobService.Api.WaiterRuns | deepagent/deepagent/api.py:42-60 | a woken task leaves the line, hands on spare permits and runs |
| JobService.Api.CompleteJob | deepagent/deepagent/api.py:79-80 | completion and the release of the permit are one step |
| JobService.Api.FailJob | deepagent/deepagent/api.py:81-117 | a failed job keeps its permit while its notice is sent |
| JobService.Api.FinishNotice | deepagent/deepagent/api.py:118-131 | the permit is released once the notice was sent or gave up |
| JobService.Api.ReleasePermit | deepagent/deepagent/api.py:57 | a released permit goes to the first waiter still asleep |
| TokenRefresh.SingleFlight | portal/lib/backend.ts:123-147 | in every interleaving at most one refresh per token is outstanding, and after a success the next is sent only when its minute is over |
| TokenRefresh.NoSecondSend | portal/lib/backend.ts:128-147 | no gap between cache and in-flight map: from sending until a minute after storing, a call sends nothing |
| TokenRefresh.SamePairForAll | portal/lib/backend.ts:128-147 | all calls in that period resolve to the same pair |
| TokenRefresh.NoClearingInPeriod | portal/lib/backend.ts:186-227 | a proxied request in that period sets that pair's cookies and never clears them |
| TokenRefresh.FlightRunsItsCourse | portal/lib/backend.ts:123-147 | once answered, a refresh is stored for a minute if it gave a pair, and is no longer in flight |
| TokenRefresh.InvAlways | portal/lib/backend.ts:123-147 | inductive invariant of the two maps against the history of flights and callers |
| TokenRefresh.ProxyRequest | portal/lib/backend.ts:171-229 | refresh and retry once on 401; cookies are replaced exactly on a new pair, cleared exactly on an unrefreshed 401 |
| TokenRefresh.SendsExactlyWhen | portal/lib/backend.ts:128-147 | in every interleaving a call sends upstream exactly when nothing of its token is outstanding or was stored less than a minute ago |
| TokenRefresh.FetchJson | portal/lib/backend.ts:232-250 | the data routes' refresh and retry leave the cookies alone; data comes from a successful JSON answer alone, an error text from a failed one, and a body that cannot be parsed raises |
| TokenRefresh.RefreshReachesCookieExactlyWhen | portal/lib/backend.ts:171-250 | a successful refresh reaches a cookie exactly when a proxied request is among those that share it |
| TokenRefresh.SessionBroker.RefreshTokens | portal/lib/backend.ts:128-147 | cached pair, shared promise or new flight, in that order |
| TokenRefresh.SessionBroker.OnResult | portal/lib/backend.ts:133-142 | a pair is stored for a minute and expired entries are purged |
| TokenRefresh.SessionBroker.OnSettled | portal/lib/backend.ts:143 | the in-flight entry goes when the flight settles |
| ProxyChain.NginxAddressArrives | portal/lib/backend.ts:74-84 | whatever the client sends, the address nginx appends is the one forwarded and, in its canonical form, the backend's answer behind a trusted peer |
| ProxyChain.RightmostIsClient | server/app/core/client_ip.py:90-132 | for every prefix and every suffix of proxies the element between them is the client |
| ProxyChain.AllHopsMeansLeftmost | server/app/core/client_ip.py:129-132 | among proxies only, the leftmost is the client |
| ProxyChain.SentPrefixIsIgnored | server/app/core/client_ip.py:90-132 | text in front of a header that has a non-proxy element changes nothing |
| ProxyChain.SentPrefixDecidesOnlyBehindProxies | server/app/core/client_ip.py:90-132 | and it decides when every later element is a proxy |
| ProxyChain.UntrustedHeadersAreIgnored | server/app/core/client_ip.py:158-194 | an untrusted peer's headers have no effect |
| ProxyChain.ParseXff | server/app/core/client_ip.py:90-132 | the scan from the right computes the reference parse |
| ProxyChain.GetClientIp | server/app/core/client_ip.py:158-194 | of a trusted peer the forwarded client, else the real-IP header, else the peer itself, each as the canonical form of the address it stands for (with or without zone or port), or its bare text where there is none; an untrusted peer itself |
| ProxyChain.ClientIpAnswers | server/app/core/client_ip.py:158-194 | the same of the reference answer |
| ProxyChain.NormalizeIsNormalForm | server/app/core/client_ip.py:135-155 | every text stands for one address, bare, with a zone or with a port, and is normalised to its canonical form |
| ProxyChain.ForwardedHeadersAre | portal/lib/backend.ts:74-84 | what goes upstream: the last element of the header, or else X-Real-IP, which also goes on |
| ProxyChain.TrimTakesEnds | server/app/core/client_ip.py:108-113 | trimming takes white space off both ends and no more |
| Reconnect.FailuresTryEveryUrl | portal/components/realtime-context.tsx:166-208 | from any reachable state, n attempts in a row that never open dial all n URLs |
| Reconnect.DialsInACircle | portal/components/realtime-context.tsx:166-208 | the k-th failing attempt dials the URL k places on, in a circle |
| Reconnect.LockPointsAtCandidate | portal/components/realtime-context.tsx:166-208 | in every history a locked URL is the one the candidate index points at |
| Reconnect.BackoffIsBounded | portal/components/realtime-context.tsx:209-213 | waits stay within one and thirty seconds, never shrink on failure, restart at one second |
| Reconnect.WaitsDouble | portal/components/realtime-context.tsx:209-213 | after k failures the wait is 2 to the k seconds, cut off at thirty |
| Reconnect.OpenedIsDialledAgain | portal/components/realtime-context.tsx:166-208 | a connection that had opened and closes is dialled again at the same URL |
| Reconnect.StaleSocketsAreIgnored | portal/components/realtime-context.tsx:201-222 | after an unmount the closes of old sockets cannot move the rotation |
| Reconnect.LateOpenMovesExactlyWhen | portal/components/realtime-context.tsx:181-187 | an open after an unmount is not guarded: it changes the refs exactly unless they already stand at its URL |
| ConnectAttempts.LateSocketExactlyWhen | portal/components/realtime-context.tsx:143-187 | in a history of attempts, mounts and unmounts a socket outlives its generation exactly if an attempt's token was read, with a URL to dial, after its generation was over |
| ConnectAttempts.ReadingWasOvertaken | portal/components/realtime-context.tsx:151-156 | such an attempt had passed its check and was reading its token when an unmount fell |
| ConnectAttempts.UnmountedRefsStandStill | portal/components/realtime-context.tsx:219-224 | until such a reading nothing moves the refs of an unmounted client, and only such a reading can be the first to |
| ConnectAttempts.HeldAlways | portal/components/realtime-context.tsx:177-224 | without such a reading every socket is of the current generation and the one that an unmount closes |
| ConnectAttempts.LocksAfterUnmount | portal/components/realtime-context.tsx:151-187 | a case: a client locks a URL and is connected after its unmount |
| Reconnect.Provider.Connect | portal/components/realtime-context.tsx:158-177 | the locked URL if still offered, else the candidate, starting over at the end; without URLs nothing is dialled or changed and connecting is tried again after five seconds |
| Reconnect.Provider.OnOpen | portal/components/realtime-context.tsx:181-187 | opening locks the URL and resets the backoff |
| Reconnect.Provider.OnClose | portal/components/realtime-context.tsx:201-214 | closing unopened unlocks and moves on; a stale socket does nothing |
| Reconnect.Provider.OnUnmount | portal/components/realtime-context.tsx:221-224 | an unmount only moves on to the next generation |
| OrgClosure.VisibleOrgIds | server/app/api/deps.py:107-132 | a non-super user sees exactly the organisations reachable from their own by child links, cycles or not; a super admin sees all |
| OrgClosure.Walker.Walk | server/app/api/deps.py:124-131 | the recursive walk over a shared visited set ends, adds only what is below, and leaves no child of an added organisation out |
| OrgClosure.ViewsNest | server/app/api/deps.py:107-132 | a descendant's view is contained in its ancestor's |
| OrgClosure.CycleSharesView | server/app/api/deps.py:107-132 | organisations on a cycle share one view |
| Topology.BuildLevelTemplate | portal/lib/system-profile-diagram.ts:397-485 | the builder's loops give the template's edges |
| TemplateLinks.LevelOneLinks | portal/lib/system-profile-diagram.ts:433-437 | which links level 1 has: one row from the Internet to the workstations |
| TemplateLinks.LevelTwoLinks | portal/lib/system-profile-diagram.ts:441-461 | which links level 2 has, one by one |
| TemplateLinks.LevelThreeLinks | portal/lib/system-profile-diagram.ts:441-484 | which links level 3 has, one by one: servers behind the first load balancer, storages on the first server, supplies in a row, websites on the first firewall |
| TemplateLinks.ByTypeIsDeclaredOrder | portal/lib/system-profile-diagram.ts:403-408 | each kind's devices are listed in declared order, none left out |
| Topology.LevelOneReachesAll | portal/lib/system-profile-diagram.ts:433-438 | level 1 reaches every device and the workstation |
| Topology.LevelTwoReachesExactly | portal/lib/system-profile-diagram.ts:440-460 | level 2 reaches a core device exactly if it is first of its kind, no load balancer, and anything else exactly with at most one switch |
| Topology.LevelThreeReachesExactly | portal/lib/system-profile-diagram.ts:440-484 | level 3 reaches all but load balancers after the first, and all of those without a server |
| Topology.SortedIsStable | portal/lib/system-profile-diagram.ts:405 | the declared-order sort is a stable sort |
| LevelSample.BuildLevelSample | portal/lib/system-profile-diagram.ts:288-387 | nodes and edges of the sample, each node in its layer's column one row below the nodes before it there, no two at one point |
| LevelSample.PositionsDiffer | portal/lib/system-profile-diagram.ts:345-352 | no two nodes share a point, whatever their columns |
| LevelSample.SampleEdgesAreSound | portal/lib/system-profile-diagram.ts:354-378 | every edge joins two different existing nodes, no pair twice |
| LevelSample.AddEdges | portal/lib/system-profile-diagram.ts:356-364 | adding with a seen set drops self links and repeated keys |
| LevelSample.OrderedIsPermutation | portal/lib/system-profile-diagram.ts:193-209 | listing the devices by layers neither loses nor repeats one |
| SampleLayout.NodesExactlyWhen | portal/lib/system-profile-diagram.ts:302-319 | which nodes a sample has, with their kinds |
| SampleLayout.OrderedWithinKind | portal/lib/system-profile-diagram.ts:193-209 | devices of one kind are listed in declared order |
| SampleLayout.OrderedFollowsLayers | portal/lib/system-profile-diagram.ts:200-209 | standard kinds are listed in the standard order |
| SampleLayout.ColumnsTellKinds | portal/lib/system-profile-diagram.ts:321-352 | two nodes share a column exactly if they are of one kind |
| SampleLayout.ColumnsFollowLayers | portal/lib/system-profile-diagram.ts:321-328 | standard kinds stand from left to right in the standard order |
| SampleLayout.PositionIs | portal/lib/system-profile-diagram.ts:345-352 | a node stands as many rows down as there are nodes before it in its column |
| SampleReach.NodeIdsDiffer | portal/lib/system-profile-diagram.ts:302-319 | no two nodes of a sample have the same id |
| SampleReach.SampleIsConnectedExactlyWhen | portal/lib/system-profile-diagram.ts:354-378 | the Internet reaches every node of the sample always at level 1, and at levels 2 and 3 exactly when no kind whose first device alone is linked has a second |
| SampleReach.NoKindTwiceIsConnected | portal/lib/system-profile-diagram.ts:370-378 | if no kind repeats, every node is reached along the backbone |
| SampleReach.OwnReachesOwn | portal/lib/system-profile-diagram.ts:433-438 | at level 1 one reached device makes all reached, though the link from the Internet to a workstation is dropped |
| SampleReach.SavedEdgesToFlow | portal/components/network-topology.tsx:331-357 | saved links are taken over if both ends exist, once each; an empty list gives the automatic ones |
| SampleReach.TakenOverTwice | portal/components/network-topology.tsx:331-357 | what is shown of saved links is shown again while its nodes remain, exactly if some saved link joins two different nodes that are there or there are no automatic links |
| SampleReach.GoneLinksGiveWayLater | portal/components/network-topology.tsx:331-357 | a case: links to missing nodes show nothing, and the empty list saved then shows the automatic links |
| SampleReach.NothingShownExactlyWhen | portal/components/network-topology.tsx:336-341 | nothing is shown of saved links exactly if none joins two different nodes that are there |
| SampleReach.SampleIsTakenOver | portal/components/network-topology.tsx:374-377 | the canvas shows a sample with exactly the sample's links, of which there is always one |
| CanvasHistory.AlwaysBounded | portal/components/network-topology.tsx:430-458 | past and future together never exceed 50 snapshots, in every history |
| CanvasHistory.MovesKeepTheTimeline | portal/components/network-topology.tsx:445-458 | hence undo and redo only move along one timeline and drop nothing |
| CanvasHistory.UndoRedoRestores | portal/components/network-topology.tsx:445-458 | k undos then k redos, or the reverse, restore everything |
| CanvasHistory.EditsAreUndone | portal/components/network-topology.tsx:430-451 | up to fifty edits can be undone one by one, back to the canvas before the first |
| CanvasHistory.PushedIsRestored | portal/components/network-topology.tsx:430-451 | an edit is undone to the snapshot pushed for it, and what could be redone is gone |
| CanvasHistory.TopologyCanvas.PushHistory | portal/components/network-topology.tsx:430-436 | a change is recorded, the oldest beyond 50 forgotten, the future dropped |
| CanvasHistory.TopologyCanvas.UndoLast | portal/components/network-topology.tsx:445-451 | undo on the component's own state |
| CanvasHistory.TopologyCanvas.RedoLast | portal/components/network-topology.tsx:452-458 | redo on the component's own state |
| Markdown.ParseBlocks | portal/components/investigation-markdown.tsx:29-103 | the index-driven parser ends and gives the blocks of the segments |
| Markdown.EveryLineConsumedOnce | portal/components/investigation-markdown.tsx:35-102 | every line is consumed exactly once and in order |
| Markdown.SegmentsAreFaithful | portal/components/investigation-markdown.tsx:35-102 | each stretch of lines says exactly what its block says; only blank lines, rules and fences are passed over |
| Markdown.BlocksAreMaximal | portal/components/investigation-markdown.tsx:74-101 | neighbouring items or lines of one kind always form one block |
| Markdown.RoundTrip | portal/components/investigation-markdown.tsx:29-114 | printing the blocks with blank lines between and parsing again gives the same blocks |
| Markdown.TextRoundTrip | portal/components/investigation-markdown.tsx:29-34 | the same for whole texts, front matter included |
| Markdown.FrontMatterIsDropped | portal/components/investigation-markdown.tsx:32 | front matter is dropped up to its first closing line and that line's end |
| Markdown.NothingIsDropped | portal/components/investigation-markdown.tsx:32 | without an opening or a closing line the text stays as it is |
| Markdown.ContinuesExactlyWhen | portal/components/investigation-markdown.tsx:94-114 | a paragraph goes on over text and rules, and over nothing else |
| Markdown.NumberedExactlyWhen | portal/components/investigation-markdown.tsx:83-91 | a numbered item begins with digits, a dot and white space |
| AuditChain.AppendAudit | server/app/core/audit.py:48-75 | one row appended, linked to the last hash or to genesis |
| AuditChain.VerifyChain | server/app/core/audit.py:78-92 | reports the least broken row, and nothing exactly for an intact log |
| AuditChain.BuiltLogsVerify | server/app/core/audit.py:19-75 | every log built by appending verifies, however timestamps' zones are read back |
| AuditChain.UninterruptedAppend | server/app/core/audit.py:48-75 | reading and inserting with nothing in between is one append |
| AuditChain.InterleavedRowIsBrokenExactlyWhen | server/app/core/audit.py:41-75 | in any interleaving of appends a row is broken exactly when others were inserted between its append's read and insertion, unless the last of them repeats the row it read |
| AuditChain.IntactExactlyWithoutOverlap | server/app/core/audit.py:41-75 | with different contents the log is intact exactly when no insertion fell into another append |
| AuditChain.TwoOverlappingAppends | server/app/core/audit.py:41-75 | a case: two first appends that both read before either inserts |
| AuditChain.ChangedRowIsReported | server/app/core/audit.py:32-38 | a changed row is noticed exactly if its action, target, actor or instant changed, and at that row |
| AuditChain.RewrittenRowIsUnnoticedExactlyWhen | server/app/core/audit.py:32-38 | rewriting a row and the next row's link goes unnoticed exactly if the row keeps its link, carries its own hash and the next row is linked to it |
| AuditChain.SameAnchorExactlyWhen | server/app/core/audit.py:95-100 | two intact logs have the same anchor exactly if both are empty or their last rows have the same hashed fields |
| AuditChain.HistoryCanBeReplaced | server/app/core/audit.py:95-100 | whatever was appended before the last append can be replaced by anything, with an intact log and the same anchor |
| AuditChain.RemovedRowIsReported | server/app/core/audit.py:78-92 | a removed row is noticed exactly unless it was last or repeats its neighbour, and at its place |
| EnrollToken.GenerateEnrollToken | server/app/core/security.py:141-150 | the divmod loop, reversal and padding give the base-62 body |
| EnrollToken.BodyDecodes | server/app/core/security.py:141-150 | the body reads back to the number drawn, padding or not |
| EnrollToken.TokensAreDistinct | server/app/core/security.py:141-150 | different draws give different tokens |
| EnrollToken.BodyLength | server/app/core/security.py:141-150 | 22 to 30 characters, with the exact draws for either end |
| EnrollToken.ThirtyIsAttained | server/app/core/security.py:141-150 | thirty does occur |

## Left out

- Prompts, hypotheses, step rationales, report text and error categories: they carry no bound. Of log events only that they may raise is modelled.
- The language model, the bridge's transport, HTTP, clocks, temporary files and timeouts: their results are inputs.
- `max_steps` below 1: the settings give 3 and state no bound; the models take it to be at least 1.
- JSON numbers with fractions, and Python's text for nested containers among sampled event ids (their JSON text is used).
- Cancellation of jobs, and the process ending.
- The semaphore is CPython's FIFO semaphore, modelled by its waiters and wake-ups; the rest of asyncio is not modelled.
- Python's recursion-depth limit for the organisation walk.
- TokenRefresh.SingleFlight: the clock is taken never to go back.
- ProxyChain.NginxAddressArrives: what counts as an address, a network or white space is a parameter; trimming is not.
- Reconnect.FailuresTryEveryUrl: the list of candidate URLs is fixed; in `ConnectAttempts` each attempt brings its own.
- Workflow.RunRender: the report's markdown text, and a failure while it is built.
- Topology.BuildLevelTemplate: link labels and node positions of the returned layout, which carry no reachability.
- Node captions, icons, link labels, flow-edge ids and styles, and the positions `buildDevicesTopology` gives before `buildLevelSample` replaces them.
- SampleReach.SampleIsConnectedExactlyWhen: device ids are taken to be distinct, non-empty, free of `>` and different from the reserved and sample ids.
- React batching: each handler is one step. Drag handling and the other canvas mutations are callers of `PushHistory`.
- AuditChain.IntactExactlyWithoutOverlap: transactions and rollbacks; an insertion is one step and row ids follow it.
- AuditChain.ChangedRowIsReported: the hash is any function without collisions; canonical JSON and SHA-256 are not modelled.
- `alert_engine.py`, `inventory_sync.py`, settings, migrations, X.509, AES, bcrypt and JWT: field copying or library calls.
