# L2C verification model

A Dafny model of L2C's control logic: two LangGraph state machines and the
learning pipeline between them. Screens, OCR, language models, the browser and
SQLite are replaced by arbitrary answers, so every statement below holds for
all of them.

* **Vision worker graph** (`JobCardQueue`, `ExecutionRecord`,
  `WorkerContracts`, `ReplayRuntime`, `WorkerTransition`, `WorkerSelection`,
  `WorkerReasoning`, `WorkerCycle`, `WorkerExecution`, `WorkerReview`,
  `WorkerGraph`, `WorkerRuns`, `WorkerCaptures`). The worker state, the four
  nodes and their routers form a step relation `WorkerGraph.Next`.
  `WorkerGraph.Inv` is an inductive invariant with one case per node, and
  `WorkerRuns` states what follows for every run; `WorkerCaptures` adds which
  screen an action is judged on and what is recorded of it, with a run in
  `StoredPostingRun`. The replay
  machinery carries a history that no node reads; the session and the blocked
  rules are proved to be functions of it, which turns "sequential", "blocked"
  and "stored once" into statements about legal histories. The execution node
  is a class with the source's mutable context, proved against recursive
  specification functions.
* **Investigation graph** (`EvidencePolicy`, `CollectionPlan`,
  `Investigation`, `InvestigationRuns`). `InvestigationRuns.RunFrom` recurses
  along a run under the lexicographic measure, so that Dafny accepts it is the
  termination theorem; its postconditions bound the questions, plans and
  replans.
* **Experience learning** (`RuleCompiler`, `ExperienceRuleCompiler`,
  `RulePromotion`, `RuleReplay`, `CandidateStore`, `ReviewQueue`, `RuleStore`).
  Graph contract, verdict contract and compiler are one transformation from the
  worker's log to a rule, and `RuleReplay` closes the circle: it says when a
  replay of a compiled step is verified. The review queue is a store class plus
  a protocol over any interleaving of workers, restarts and commits; the rule
  store is proved against the history of its operations.
* **Answers** (`GroundedAnswer`, `AnswerRendering`, `InvestigationAnswers`),
  **search words** (`Taxonomy`) and **posting text** (`StableSort`,
  `MarkerLines`, `DetailBuffer`) model the filters and loops that prepare input
  and output; `InvestigationAnswers` connects the answer to its investigation.

`Prelude` holds options, results and sequence vocabulary.

Where the code is not what one would expect, the model follows the code:

* Queue ids are unique only because of the model's tool gate
  (`agent/graph/worker_reasoning.py:83-86`). Without it the ids collide;
  `JobCardQueue.NormalizeKeepsIdsIff` gives the exact condition.
* A successful state action does not reset the consecutive-error counter: the
  loop in `agent/graph/worker_execution.py:131-217` writes the zero into the
  state object that the action has just replaced
  (`WorkerExecution.ErrorCounterAfterSuccess`).
* Not every action gets a transition: an open request is dropped or replaced
  when the stored-detail check or the way back to the list acts before OCR
  (`agent/graph/worker_selection.py:128-178`).
  `WorkerCaptures.OpenRequestIsJudgedIff` gives the exact condition and
  `StoredPostingRun.ClickWithoutTransition` a run.
* A step recorded as a change from an unknown to a known page role is verified
  only in a replay that sees another known role at its start
  (`RuleReplay.RepetitionIsVerifiedIff`).
* Review attempts exceed the configured maximum by recovered interruptions,
  and by failures of claims that outlived a repeated commit
  (`ReviewQueue.AttemptsAreBounded`, `ReviewQueue.StaleFailureAddsAttempt`).
* A plain text field that holds only blanks is accepted as evidence with an
  empty citation text (`GroundedAnswer.BlankLocationIsCited`,
  `GroundedAnswer.EmptyCitationIff`).
* `previous_right or bbox[2]` in `agent/runtime/detail_runtime.py:112` forgets
  a right edge at zero (`MarkerLines.CarriedRightForgetsZero`,
  `MarkerLines.CarriedRightIsMaxIff`).
* The run of an investigation raises on an answer that `clarify` refuses, and
  on one for another question before the graph sees it; the question stays open
  (`InvestigationRuns.EveryRunAnswers`, `InvestigationRuns.RefusedRun`).
* A web investigation that collects nothing answers from what the database held
  before (`InvestigationRuns.UncollectedAnswersUseTheDatabase`,
  `InvestigationRuns.FailedCollectionAnswersFromDatabase`).

Conventions: ids such as `card-n`, `step-n` and `observation:n` are modelled by
n, with 0 for a missing id; texts are modelled after the normalisation their
code applies; URL helpers, settings and character classes are parameters
(where a law needs a property of a helper, it is a named predicate such as
`RuleReplay.UrlHelpersAgree` or `GroundedAnswer.StripsBlanks`);
times are integers; run ids of the review queue are ordered like numbers.

## Model

| member | source | states |
|---|---|---|
| JobCardQueue.NormalizeJobCardQueue | agent/runtime/job_card_queue.py:80-110 | Re-reading the list drops exactly the pending cards, keeps the others in order, and appends each readable new card under the next id unless a kept card is the same. |
| JobCardQueue.JobCardIsKnown | agent/runtime/job_card_queue.py:35-49 | A card is known iff some kept card has its non-empty title and the same company, a missing company counting as the same. |
| JobCardQueue.ReadableCardsAreListed | agent/runtime/job_card_queue.py:98-110 | No readable card of the screen is missing from the re-read queue. |
| JobCardQueue.AddedCardsAreReadable | agent/runtime/job_card_queue.py:52-110 | Every added card is pending, carries the id of its position, and comes from a card with a visible marker and a title. |
| JobCardQueue.NormalizeKeepsIdsIff | agent/runtime/job_card_queue.py:52-110 | Ids stay `card-1 .. card-n` across a re-read if and only if the pending cards are a suffix of the queue. |
| JobCardQueue.UngatedNormalizeCollides | agent/runtime/job_card_queue.py:68-94 | The collision: from card-1 pending and card-2 skipped, re-reading one new card yields two cards named card-2. |
| JobCardQueue.NormalizeResolvedQueue | agent/graph/worker_reasoning.py:83-86 | With every card settled (the tool gate) a re-read only appends pending cards and keeps the queue invariants. |
| JobCardQueue.MarkExistingJobCards | agent/application/duplicate_job_service.py:55-103 | Each pending card whose lookup found a posting becomes skipped with that id; the trace lists exactly these cards in order. |
| JobCardQueue.MarkExistingAligned | agent/application/duplicate_job_service.py:62-88 | The n-th lookup answer goes to the n-th pending card, whatever settled cards lie between. |
| JobCardQueue.ActivateJobCard | agent/runtime/job_card_queue.py:254-270 | A click activates the first pending card of that id and nothing else. |
| JobCardQueue.ActivateOne | agent/runtime/job_card_queue.py:254-270 | In a well-kept queue, clicking card k changes exactly card k from pending to active and leaves at most one active card. |
| JobCardQueue.SettleActiveJobCard | agent/runtime/job_card_queue.py:282-344 | Completing, skipping or rejecting rewrites the cards that carry the active card's id. |
| JobCardQueue.SettleOne | agent/runtime/job_card_queue.py:282-344 | In a well-kept queue that is exactly the active card; afterwards no card is active and the queue is well kept. |
| JobCardQueue.ResolvedCountMonotone | agent/runtime/job_card_queue.py:146-161 | Along the allowed status moves the number of collected or recognised cards never falls. |
| WorkerContracts.AlignCountMode | shared/schema/collection_intent.py:80-89 | The count mode is `explicit` exactly when a target is set and `visible_all` exactly when it is zero. |
| ExecutionRecord.AttachTransition | agent/runtime/worker_contracts.py:186-279 | Attaching a transition changes no event but the one of the group's last call, and only its transition, numbered by the group's first call. |
| ExecutionRecord.AttachKeepsOrder | agent/runtime/worker_contracts.py:186-279 | Attaching the open group's transition keeps the log gapless and the transitions ordered and non-overlapping. |
| ReplayRuntime.SelectRule | agent/recipe/replay.py:233-268 | The chosen rule is never blocked, stands at step 0 without a session, otherwise at the session's rule and current step; no choice means no eligible rule binds. |
| ReplayRuntime.SelectRuleIsFirst | agent/recipe/replay.py:233-268 | The choice is a candidate that is eligible and binds, at its current step, with no earlier candidate that does both. |
| ReplayRuntime.StepsAreSequential | agent/recipe/replay_runtime.py:53-62 | In a legal history step n > 0 is issued only after step n - 1 of the same rule was judged ready, with only re-issues of step n in between. |
| ReplayRuntime.BlockedRulesStayBlocked | agent/recipe/replay_runtime.py:65-75 | After a failure of a rule no later entry issues that rule. |
| ReplayRuntime.PersistedOnce | agent/recipe/replay_runtime.py:180-205 | A stored replay result closes a session that began at step 0 with every earlier step ready and nothing stored since; it is a success iff the last step was ready. |
| ReplayRuntime.ResultsAreSeparated | agent/recipe/replay_runtime.py:180-205 | Two stored results are separated by the start of a new session. |
| WorkerTransition.ReflexReadyIffVerified | agent/graph/worker_transition.py:53-148 | A rule's transition becomes ready iff it waited for OCR and the expected effect holds on the OCR'd capture; other sources leave session, blocked rules and history unchanged. |
| WorkerTransition.JudgedWithoutOcrIff | agent/graph/worker_transition.py:53-91 | A transition is judged without OCR iff no pixels changed, nothing was typed and no rule effect is verified; it is then unknown. |
| WorkerTransition.ReadyAfterOcrIff | agent/graph/worker_transition.py:94-148 | After OCR another action is ready iff the screen has markers and URL, pixels or typed text changed, and for a queued card the detail page is shown. |
| WorkerTransition.ReusedOcrIsOfSameScreen | agent/runtime/transition_runtime.py:277-324 | A new capture gets OCR data unread only if its pixels did not change, nothing was typed, and the action started from the last screen read, under the same URL; the data are that screen's. |
| WorkerTransition.SessionMovesOnReady | agent/recipe/replay_runtime.py:53-62 | A judged rule step advances the session by one on ready, closes it on the last step or on failure, and enters one history entry. |
| WorkerTransition.CompletedKeepsLog | agent/graph/worker_transition.py:171-249 | Consuming a transition request keeps the log gapless and its transitions ordered. |
| WorkerTransition.CompletedKeepsReplay | agent/graph/worker_transition.py:213-242 | After a judgement the stored session is the one the history leaves open and the blocked rules are exactly the failed ones. |
| WorkerTransition.AttemptKeepsReplay | agent/recipe/replay_runtime.py:208-295 | The same after a rule hit or miss: a hit opens or continues a legal session, a miss ends it and blocks its rule. |
| WorkerSelection.NavigationTakesTwoSteps | agent/graph/worker_selection.py:128-147 | Returning to the list proposes `go_back` first and closes the tab only right after a `go_back` without effect. |
| WorkerSelection.QueuedClickIsNextCard | agent/runtime/job_card_queue.py:391-458 | A queued click names the first pending card, on a read search page with no active card and no open session. |
| WorkerReasoning.ChooseReasoningAction | agent/graph/worker_reasoning.py:252-296 | Each tier is tried at most once, every attempt is charged to the stage, and the result is a valid reply or none, within the call limit. |
| WorkerReasoning.ReasoningIsGated | agent/graph/worker_reasoning.py:63-91 | Reasoning always yields one supported request without queue ids; a card queue is proposed alone and only when every card is settled; an exhausted budget means a policy stop. |
| WorkerCycle.RulesAreTriedOnce | agent/graph/worker_cycle.py:79-121 | A capture on which no rule applied is not searched for rules again. |
| WorkerReview.StoreJobCapture | agent/runtime/job_capture.py:17-30 | The capture replaces the first one of the same page, or is appended. |
| WorkerReview.StoreCaptureKeepsDistinct | agent/runtime/job_capture.py:10-30 | No page is ever stored twice; the set of stored pages grows by exactly the reviewed one. |
| WorkerReview.ReviewOutcomes | agent/graph/worker_review.py:85-194 | A review clears the draft and completes the active card and stores the page, or changes neither, or rejects the card; it ends the run iff the new queue and captures finish it. |
| WorkerExecution.WorkerExecutionContext.RecordActionResult | agent/graph/worker_action_recording.py:56-120 | Exactly one event with the next sequence number is appended and nothing else changes. |
| WorkerExecution.WorkerExecutionContext.GuardActionRequest | agent/graph/worker_action_guard.py:80-119 | A repeated request is stopped with exactly one skipped event; only the no-effect repetition, which needs a target in every call, counts as an error. |
| WorkerExecution.WorkerExecutionContext.GuardUiAction | agent/graph/worker_action_guard.py:122-170 | A blocked action or an untimely tab close leaves one event and one more error, and stops the request. |
| WorkerExecution.WorkerExecutionContext.SetTransitionRequest | agent/graph/worker_transition_recording.py:13-123 | The request joins the group of the same screen and source, or replaces it. |
| WorkerExecution.WorkerExecutionContext.ExecuteToolCall | agent/graph/worker_execution.py:71-128 | One call leaves exactly the state, events and stop decision of its guards, tool kind and outcome. |
| WorkerExecution.WorkerExecutionContext.ExecuteStateAction | agent/graph/worker_action_effects.py:119-163 | A review request stores a draft; a queue request stores the normalised, marked queue and finishes the run when its scope is complete. |
| WorkerExecution.WorkerExecutionContext.ExecuteActionRequest | agent/graph/worker_execution.py:131-217 | The call loop leaves the state and events that the recursive specification of guards, tools, failures and early stops gives. |
| WorkerExecution.ExecutionNode | agent/graph/worker_execution.py:231-292 | The node's result, including the record of a missing request, for every answer of guards and tools. |
| WorkerExecution.ErrorCounterAfterSuccess | agent/graph/worker_execution.py:131-195 | A successful screen action and every finish resets the error counter; a successful state action leaves it as it was. |
| WorkerGraph.ObserveKeepsInv | agent/graph/worker_cycle.py:173-185 | The observation node keeps the graph invariant: a request left unjudged waits for OCR or for a readable screen. |
| WorkerGraph.SelectKeeps | agent/graph/worker_selection.py:206-244 | Selection either decides safely (its outcome satisfies the invariant of the node it is routed to) or leaves a readable screen to decide on; it moves at most the active card, by one edge. |
| WorkerGraph.RunOcrKeeps | agent/graph/worker_cycle.py:124-141 | OCR of an undecided capture never raises and leaves no unjudged request. |
| WorkerGraph.DecideKeepsInv | agent/graph/worker_cycle.py:188-214 | The decision node never raises and always ends finished, with an acceptable action, or on a low-information screen. |
| WorkerGraph.CallsKeepCtx | agent/graph/worker_execution.py:131-217 | Any prefix of a request's calls keeps the log gapless, the transition group open and the replay session consistent. |
| WorkerGraph.ExecuteKeepsInv | agent/graph/workflow.py:42-55 | Whatever tools and guards answer, execution satisfies the invariant of the node it routes to. |
| WorkerGraph.ReviewKeepsInv | agent/graph/worker_review.py:171-194 | Review settles at most the active card, loses no stored page, and satisfies the invariant of the node it routes to. |
| WorkerRuns.NextKeepsInv | agent/graph/workflow.py:90-134 | One graph step from any state that satisfies the invariant satisfies it again; each card moves by at most one permitted edge, no event is lost and the replay history is only extended. |
| WorkerRuns.RunsNeverCrash | agent/graph/workflow.py:30-39 | In no run is the router's or a node's RuntimeError reachable, low-information captures in a row never exceed the configured cycle limit, and a stage never exceeds its call limit. |
| WorkerRuns.QueueInvariants | agent/runtime/job_card_queue.py:35-110 | In every reachable state ids are card-1..card-n, at most one card is active and no two cards are the same; one step moves a card only from pending to active or skipped, or from active to done, skipped or rejected; over any steps no card is lost, renamed or moved backwards and the resolved count never falls. |
| WorkerRuns.LogInvariants | agent/graph/worker_execution_context.py:56-57 | In every run event i has seq i from the start page on, transitions are ordered, and the log is append-only up to attached transitions. |
| WorkerRuns.CompletionMeaning | agent/graph/worker_review.py:49-82 | `target_reached` means a positive target met by distinct captures or resolved cards; `visible_scope_completed` means target zero and a non-empty queue with nothing pending or active. |
| WorkerRuns.ReplayHistoryIsLegal | agent/recipe/replay_runtime.py:53-75 | In every run the session and the blocked rules are those of a legal replay history. |
| WorkerRuns.BlockedRulesAreNotReplayed | agent/recipe/replay_runtime.py:208-238 | The blocked set only grows and no rule step sent to execution belongs to a blocked rule. |
| WorkerRuns.ReplayIsSequential | agent/recipe/replay_runtime.py:262-295 | In every run, step n > 0 of a rule reaches execution only after step n - 1 was judged ready. |
| WorkerRuns.ReadyJudgementsWereVerified | agent/graph/worker_transition.py:117-124 | In every run, each ready judgement of a rule step was entered by a decision with the request of that very rule and step open, whose OCR'd capture showed the step's expected effect. |
| WorkerRuns.OneOutcomePerSession | agent/recipe/replay_runtime.py:180-205 | In every run at most one replay result is stored per session. |
| WorkerCaptures.ObservationIdsCountCaptures | agent/graph/worker_observation.py:108-237 | In every run the observation id is the number of observation nodes passed. |
| WorkerCaptures.ActionsAreJudgedOnLaterCaptures | agent/graph/worker_transition_recording.py:43-107 | In every run an open request remembers the observation and screenshot of the execution that made it, and a decision judges it on a later capture only. |
| WorkerCaptures.InputIsOneTransition | agent/runtime/worker_contracts.py:186-279 | In every run, at the step that closes the request of a successfully typed and submitted text, the log becomes the one before execution plus both calls and one transition of both recorded actions, numbered by the first call, seen from the screen before it and attached to the second; only a decision that selection disturbs leaves out the transition. |
| WorkerCaptures.ExecutedInputIsOpen | agent/graph/worker_transition_recording.py:13-123 | In every run the request of such an input is open right after its execution. |
| WorkerCaptures.OpenRequestIsJudgedIff | agent/graph/worker_selection.py:206-244 | On a readable screen a decision judges the open request and attaches its transition if and only if a rule is under way or neither the stored-detail check nor the way back to the list acts; otherwise the log stays. |
| WorkerCaptures.StoredDetailDropsRequest | agent/graph/worker_selection.py:53-178 | On the detail page of a stored posting, with its card active and no rule under way, a decision drops the open request and the log gets no transition. |
| StoredPostingRun.ClickWithoutTransition | agent/graph/worker_selection.py:53-178 | The run: list, queue, click, stored detail page; the successful, recorded click ends without transition. |
| WorkerCaptures.OnlyModelCallsAreCharged | agent/graph/worker_cycle.py:188-214 | A decision ends with the model's request, whose stage is then charged more calls than before, or with the policy stop, charged no less; or it leaves the stage budget and the error counter alone and any action is a policy's or a rule's. |
| EvidencePolicy.RowsForRequirement | agent/application/evidence_service.py:72-109 | The chain of exclusions keeps, in order, exactly the rows that meet every condition. |
| EvidencePolicy.CandidatesMeetConditions | agent/application/evidence_service.py:151-213 | A posting is a candidate iff it is in scope and meets the taxonomy, site, text, experience and date conditions, with any/all matching spelled out. |
| EvidencePolicy.InspectStaysInScope | agent/application/evidence_service.py:139-188 | With a document scope the database report names documents of that scope only. |
| EvidencePolicy.SelectedIds | agent/graph/investigation_evidence_policy.py:306-336 | The kept documents are distinct candidates, named by the model where it had to judge, and at most the explicit target. |
| EvidencePolicy.ApplyEvidenceValidation | agent/graph/investigation_evidence_policy.py:385-423 | The loop's report equals the specified one and its document list is the reports' ids without repetition, in first-seen order. |
| EvidencePolicy.ValidationNarrows | agent/graph/investigation_evidence_policy.py:385-423 | Validation never adds a document. |
| EvidencePolicy.SufficientMeansEnough | agent/graph/investigation_evidence_policy.py:317-382 | A sufficient verdict is backed, per requirement, by enough distinct documents with enough of every required field and enough dates where dates were asked for. |
| CollectionPlan.SelectCollectionSteps | agent/graph/investigation_evidence_policy.py:129-184 | The loop keeps the admissible steps with new inputs up to the step cap. |
| CollectionPlan.SelectedStepsAreAdmissible | agent/graph/investigation_evidence_policy.py:129-184 | Selected steps name offered sites and known evidence and have pairwise different inputs. |
| CollectionPlan.AdmissibleStepsAreCovered | agent/graph/investigation_evidence_policy.py:129-184 | Below the step cap every admissible proposal is selected or has the input of a selected step. |
| CollectionPlan.SelectedIdsMayRepeat | agent/graph/investigation_evidence_policy.py:141-183 | Two admissible steps of one id are both selected iff their inputs differ, so one collection can cover two steps. |
| CollectionPlan.NewCollectionSteps | agent/graph/investigation_evidence_policy.py:256-272 | The loop accepts a step iff neither its id nor its run is known yet. |
| CollectionPlan.NewStepsAreNew | agent/graph/investigation_evidence_policy.py:256-272 | A second plan repeats no id and no run, of the first plan or its own. |
| Investigation.NextKeepsInv | agent/graph/investigation_workflow.py:49-133 | Every edge of the graph keeps the bookkeeping of executed steps, results and documents and the scope of the report; no node raises, except clarify on an answer whose value it refuses, which changes nothing. |
| InvestigationRuns.NextDecreases | agent/graph/investigation_workflow.py:49-133 | Every edge decreases the measure (questions left, plan, replan, unexecuted steps, node rank), unless the value of an answer is refused. |
| InvestigationRuns.RunFrom | agent/graph/investigation_workflow.py:49-133 | The run from any reachable configuration terminates, in the answer or in a refused answer, within the question, plan and replan budgets left. |
| InvestigationRuns.ReplanUsesNewSites | agent/graph/investigation_evidence_nodes.py:284-350 | The second plan adds only steps on offered sites the first plan did not use, under new ids. |
| InvestigationRuns.EveryRunAnswers | agent/graph/investigation_workflow.py:185-222 | A run reaches the answer if and only if the world refuses none of the answers to its n questions, n being the questions it asks when all are accepted; otherwise it stops with the question still open. n is at most one more than the analysis left, and planning and replanning happen at most once. |
| InvestigationRuns.RefusedRun | agent/application/clarification_service.py:65-81 | The input: the analysis asks for the site and the answer is refused; the run does not answer. |
| InvestigationRuns.AnswersAreScoped | agent/graph/investigation_evidence_nodes.py:112-168 | At the answer of a web investigation that collected anything the report is within this run's documents; executed ids are distinct plan ids, one result each, and the documents are the union of the results. |
| InvestigationRuns.CollectAndPersistAgree | agent/graph/investigation_collection_nodes.py:245-338 | Collect always finds a step and persist finds a batch of the same step. |
| InvestigationRuns.UncollectedAnswersUseTheDatabase | agent/graph/investigation_collection_nodes.py:341-349 | From its first inspection on, a web investigation ends with a report within its own documents if and only if it collected some or that inspection found none. |
| InvestigationRuns.FailedCollectionAnswersFromDatabase | agent/graph/investigation_collection_nodes.py:341-349 | The run: the only collection fails while the database holds a posting, and the answer's report names that posting. |
| RuleCompiler.GraphContractErrors | agent/application/recipe_execution_graph_service.py:231-251 | No error is reported iff the graph assigns the events once and in order, has distinct nodes, and only proper edges. |
| RuleCompiler.GraphCoversRun | agent/application/recipe_execution_graph_service.py:169-180 | The node transitions of a contract-valid graph are the recorded transitions, in order. |
| RuleCompiler.WorkerLogsQualify | agent/runtime/worker_contracts.py:186-279 | Logs of worker runs have distinct event and transition numbers, as the compiler needs. |
| RuleCompiler.VerdictsMeetContract | agent/application/recipe_candidate_review_service.py:191-216 | The counting loop accepts iff every actionable node has exactly one verdict, nothing else has one, and an accepted review keeps a node. |
| RuleCompiler.SelectedGraphNodes | agent/application/recipe_candidate_review_service.py:247-280 | Retained and pruned are the actionable nodes by verdict, in graph order; the lookup fails iff an actionable node has no verdict. |
| RuleCompiler.VerdictLookupsSucceed | agent/application/recipe_candidate_review_service.py:247-280 | Under the contract the lookup cannot fail and an accepted review retains a node. |
| RuleCompiler.RetainedAndPrunedPartition | agent/application/recipe_candidate_review_service.py:247-280 | Retained and pruned nodes partition the actionable ones. |
| ExperienceRuleCompiler.CompileExperienceRule | agent/application/experience_rule_compiler.py:155-222 | The loop's rule, or its first error, for every log, graph and selection. |
| ExperienceRuleCompiler.CompilesIffReplayable | agent/application/experience_rule_compiler.py:69-127 | Compilation succeeds iff every selected transition succeeded, is supported and not sensitive, has proven input slots and region hashes. |
| RulePromotion.AcceptedReviewYieldsSources | agent/application/experience_rule_compiler.py:37-66 | After an accepted, contract-valid review none of the node-selection errors can occur. |
| RulePromotion.RuleIsSelectionOfRun | agent/application/experience_rule_compiler.py:155-203 | The rule's steps are, one for one and in order, a subsequence of the recorded transitions, each replayable and carried over unchanged. |
| RulePromotion.RuleActionsAreRecorded | agent/application/experience_rule_compiler.py:88-127 | The actions of a step are the recorded ones; typed text stays unless it fills an input slot, which then is an input of the rule. |
| RulePromotion.NodeStepsConcatenate | agent/application/experience_rule_compiler.py:166-213 | The step ids of the rule's nodes concatenate to step-1..step-n. |
| RuleReplay.ExecutedStepIsRequestOf | agent/graph/worker_transition_recording.py:30-107 | The request that execution opens for a rule step carries that step's expected effect and its recorded start role, else the role on screen. |
| RuleReplay.RepetitionIsVerifiedIff | agent/application/experience_rule_compiler.py:130-152 | Compile, then replay: a replay that repeats the recorded screens is verified if and only if its start is known to be comparable: a start URL for a URL change, a start role for a page change, enough changed pixels otherwise. |
| RuleReplay.StandstillIsVerifiedIff | agent/recipe/replay_runtime.py:99-177 | A replay still on its start screen is verified if and only if the recording changed neither page nor role and the configured ratio is zero. |
| RuleReplay.RuleStepsCanBeRepeated | agent/application/experience_rule_compiler.py:155-203 | For every step of a compiled rule there is a recorded transition whose repetition is verified under exactly that condition. |
| RuleReplay.CompiledStepsBindValidly | agent/recipe/replay.py:374-460 | Every step of a compiled rule binds to calls that pass the request contract. |
| CandidateStore.RecipeCandidateStore.ClaimReview | agent/recipe/candidate_store.py:148-185 | A claim takes the oldest eligible row, marks it and counts the attempt; it returns nothing iff no row is eligible. |
| CandidateStore.RecipeCandidateStore.DeferReview | agent/recipe/candidate_store.py:187-221 | Only a row under review is put back or failed. |
| CandidateStore.RecipeCandidateStore.RecoverInterruptedReviews | agent/recipe/candidate_store.py:133-146 | Exactly the rows under review become pending. |
| CandidateStore.RecipePromotionWorker.ProcessOne | agent/application/recipe_promotion_worker.py:90-172 | One claim ends settled, deferred, or failed terminally when its own attempt was the last allowed. |
| ReviewQueue.AttemptsAreBounded | agent/application/recipe_promotion_worker.py:140-153 | Under any interleaving the attempts of a run stay within the maximum plus its recovered interruptions plus the claims from before its last commit that put the row back, at most as many as were held then. |
| ReviewQueue.StaleFailureAddsAttempt | agent/recipe/candidate_store.py:187-221 | The last summand is needed: a run of the queue with maximum two, no recovery and three attempts, after a claim outlived a second commit. |
| ReviewQueue.ClaimsAreUnique | agent/recipe/candidate_store.py:148-185 | Between commits no attempt number is handed out twice. |
| ReviewQueue.SettledStays | agent/recipe/candidate_store.py:94-221 | A settled candidate stays exactly as it is until it is committed again or another verdict is written. |
| ReviewQueue.LastVerdictStands | agent/recipe/candidate_store.py:94-117 | After a verdict, whatever follows short of a commit or another verdict, the candidate has that verdict. |
| ReviewQueue.LateVerdictReplaces | agent/recipe/candidate_store.py:94-117 | A run of the queue in which the worker of an interrupted, recovered claim replaces the verdict of the next claim. |
| ReviewQueue.StepsAreStoreOperations | agent/recipe/candidate_store.py:47-221 | Each protocol step is the store operation on the row it names. |
| RuleStore.ExperienceRuleStore.SaveRule | agent/recipe/store.py:128-185 | After a save both tables are again exactly what the history of saves, replays and clears says. |
| RuleStore.ExperienceRuleStore.RecordReplayResult | agent/recipe/store.py:198-207 | The same after a replay result, which counts only for a stored rule. |
| RuleStore.ExperienceRuleStore.ClearRules | agent/recipe/store.py:187-196 | The same after clearing a site or all rules with their sources. |
| RuleStore.SupportIsDistinctRuns | agent/recipe/store.py:128-185 | If every save names its run, support is the number of distinct runs since the payload last changed. |
| RuleStore.RepeatedSaveIsIdempotent | agent/recipe/store.py:145-158 | Saving the same rule for the same run again changes nothing. |
| RuleStore.ChangedPayloadResets | agent/recipe/store.py:159-172 | A changed payload resets support to one and both replay counters to zero. |
| GroundedAnswer.AnswerLineReferences | agent/graph/investigation_answer_nodes.py:67-99 | The loop with its pointer index cites as specified and keeps the index exact. |
| GroundedAnswer.ValidateGroundedAnswer | agent/graph/investigation_answer_nodes.py:102-155 | The filter keeps, cites or refuses lines as specified, for every draft and document set. |
| GroundedAnswer.ValidatedAnswerIsGrounded | agent/graph/investigation_answer_nodes.py:102-155 | Citations are 1..n over distinct pointers to existing values, each used by a kept line; detail lines cite their own document; order and section limit hold. |
| GroundedAnswer.CitedTextIsVisible | agent/graph/investigation_answer_nodes.py:47-64 | A cited list item always shows text; a cited plain field does iff its value is not blank. |
| GroundedAnswer.EmptyCitationIff | agent/graph/investigation_answer_nodes.py:47-64 | Some draft obtains a citation of empty text if and only if some loaded document has a plain field that is not empty but blank. |
| GroundedAnswer.BlankLocationIsCited | agent/graph/investigation_answer_nodes.py:47-64 | The input: a posting whose location is one blank, and the draft that cites it with an empty text. |
| InvestigationAnswers.AnswersCiteCollectedDocuments | agent/graph/investigation_answer_nodes.py:357-379 | The answer of a web investigation that collected anything names and cites only documents collected in it, whatever is drafted. |
| AnswerRendering.DetailGroups | agent/graph/investigation_answer_nodes.py:194-205 | Grouping makes one section per key, with exactly the key's detail lines in order. |
| AnswerRendering.RenderGroundedAnswer | agent/graph/investigation_answer_nodes.py:176-234 | Every line is shown exactly once and every document lookup succeeds. |
| AnswerRendering.ValidateAndRender | agent/graph/investigation_answer_nodes.py:423-435 | For every draft and every documents the validated answer is rendered, each line once, and no document lookup fails. |
| Taxonomy.ContainsTaxonomyAlias | agent/application/search_taxonomy_utils.py:17-36 | The scan finds the alias iff some occurrence has both token boundaries. |
| Taxonomy.ContainsIsTransitive | agent/application/search_taxonomy_utils.py:17-36 | Bounded containment is transitive. |
| Taxonomy.ContainsLengthens | agent/application/search_taxonomy_utils.py:17-36 | A different containing text is strictly longer. |
| Taxonomy.FilterKeepsSpecific | agent/application/search_taxonomy_service.py:37-53 | The specificity filter is non-empty on non-empty input and every dropped alias is contained in a kept one. |
| Taxonomy.KeptConceptsAreSpecific | agent/application/search_taxonomy_service.py:37-53 | A kept concept has an alias no other candidate contains. |
| Taxonomy.ResolveOccupationConcepts | agent/application/search_taxonomy_service.py:55-92 | Exact aliases dominate; otherwise the specific contained ones are returned. |
| Taxonomy.ResolveSkillConcepts | agent/application/search_taxonomy_service.py:94-131 | The same per sorted term, without repetition over all terms. |
| Taxonomy.ResolvesIffContained | agent/application/search_taxonomy_service.py:55-92 | A text resolves to something iff some alias occurs in it at token boundaries. |
| MarkerLines.GroupMarkersByY | agent/runtime/detail_runtime.py:65-90 | The loop places every marker, by center, into the first line close enough or a new one. |
| MarkerLines.GroupingPartitions | agent/runtime/detail_runtime.py:65-90 | Grouping loses and repeats no marker and each line's center is the exact mean of its members' centers. |
| MarkerLines.SplitInlineSegments | agent/runtime/detail_runtime.py:93-113 | The loop splits the line as specified, with the right edge the code carries on. |
| MarkerLines.SegmentsCutAtGaps | agent/runtime/detail_runtime.py:93-113 | Segments concatenate to the line and start exactly at the gaps wider than the limit. |
| MarkerLines.CarriedRightIsMaxIff | agent/runtime/detail_runtime.py:112-112 | The carried right edge is the running maximum if and only if that maximum is not 0 or the last edge is not negative. |
| MarkerLines.SegmentsCutAtWideGaps | agent/runtime/detail_runtime.py:93-113 | Every distance to the largest edge that is wider than the limit starts a segment, and unless that edge was forgotten nothing else does. |
| MarkerLines.CarriedRightForgetsZero | agent/runtime/detail_runtime.py:112-112 | The input: an edge at zero followed by one left of the screen is forgotten. |
| MarkerLines.TextLines | agent/runtime/detail_runtime.py:127-150 | The text markers that are not icons are split into y-lines and these at their wide gaps, with limits from the median height; every one ends in exactly one segment, and the readable segments come out sorted by top and left. |
| MarkerLines.LineBoxEncloses | agent/runtime/detail_runtime.py:37-47 | A line's box is the tight bounding box of its markers that have one. |
| DetailBuffer.UpdateJobDetailBuffer | agent/runtime/detail_runtime.py:418-495 | One screen updates the buffer as specified, or leaves it when it shows no posting. |
| DetailBuffer.UpdateKeepsBuffer | agent/runtime/detail_runtime.py:338-392 | Keys stay distinct and aligned, ids stay 1..n, the cap holds, old lines stay a prefix; the total exceeds the cap by one only for a full buffer. |
| DetailBuffer.NothingMissingBelowCap | agent/runtime/detail_runtime.py:338-392 | Below the cap every eligible line's key is present. |
| DetailBuffer.ScreensKeepBuffer | agent/runtime/detail_runtime.py:418-495 | Over any screens of one posting the buffer only grows, within its limits. |
| DetailBuffer.DetailBufferText | agent/runtime/detail_runtime.py:574-590 | The text is the numbered rows of a prefix of the lines, shorter than the limit, stopped only by a row that would not fit. |

## Left out

- Language models, prompts and structured-output parsing: their results are arbitrary values that meet the checked contracts; model-chosen calls carry no metadata, as the code builds them.
- Screen capture, OCR, image comparison, mouse and browser tools: arbitrary captures, markers, ratios and tool results per step; `Screening`, `OcrResult` and `CallAnswer` hold them.
- URL canonicalisation, site profiles and page-role rules: functions of `Cfg` or values in the answers, because they are library parsing without a local law.
- Matching a queued card to a marker (agent/runtime/job_card_queue.py:347-388): whether a marker was found is an answer of the outside world.
- Binding a rule step to the screen (agent/recipe/replay.py:271-531): `RuleCandidate.bind` is an arbitrary function of the step to valid calls, which `RuleReplay.CompiledStepsBindValidly` justifies.
- The detail buffer inside the worker state: whether a review is possible is an answer of the outside world; the buffer itself is modelled in `DetailBuffer`.
- Collected jobs, review history, metrics, cost totals and the overall reasoning call count: bookkeeping that no modelled branch reads.
- Repetition tests on the action history (no-effect, submitted input, loops): arbitrary booleans per step for the calls they can apply to, since only their consequences matter to the invariants.
- Task permissions of single actions (agent/runtime/action_permissions.py): one boolean per call.
- The single-site shortcut of the first plan (agent/graph/investigation_evidence_policy.py:187-240): the shortcut step is an arbitrary value.
- Parsing of clarification answers (agent/application/clarification_service.py:65-206): whether a value is refused and the new constraints are arbitrary; which questions remain open is modelled.
- Status texts of collection results and the final run status: a chain of independent conditions over the results.
- Link confidence in agent/application/job_taxonomy_linker.py: overwritten rather than maximised, so there is no law to state.
- CandidateStore.RecipePromotionWorker.ProcessOne: states the store when nobody else touches it meanwhile; interleavings are the subject of `ReviewQueue`.
- Threads and polling of the promotion worker: `ReviewQueue` lets any number of workers act in any order instead.
- SQL text, JSON and file names: tables are maps whose transactions are atomic.
- Rendered Markdown: the answer is a list of blocks, because line text is free output.
