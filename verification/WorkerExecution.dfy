/**
 Executing one action request (agent/graph/worker_execution.py,
 agent/graph/worker_execution_context.py, agent/graph/worker_execution_dispatch.py,
 agent/graph/worker_action_guard.py, agent/graph/worker_action_recording.py,
 agent/graph/worker_action_effects.py, agent/graph/worker_transition_recording.py).

 The class is the source's mutable context; the functions before it say what
 its methods leave behind.
 */
module WorkerExecution {
  import opened Prelude
  import opened ExecutionRecord
  import opened WorkerContracts
  import JobCardQueue

  // ------------------------------------------------------------------ environment

  datatype ReviewMode = EmptyBuffer | UnchangedEvidence | LightweightReview | PrimaryReview | PreparationFailed

  /** What the guards and tools answer for one call. */
  datatype CallAnswer = CallAnswer(
    policyBlocked: bool,            // outside the public collection policy
    goBackHadNoEffect: bool,        // the latest no-effect transition was a go_back
    status: ResultStatus,           // ErrorResult also stands for a raised exception
    screenOpened: bool,             // open_browser opened a page, or none was shown before
    openedUrl: string,
    candidate: Option<ActionDetail>,
    review: ReviewMode, cardKey: string,
    existing: seq<Option<int>>)     // stored postings, aligned with the pending cards

  datatype ExecutionAnswers = ExecutionAnswers(
    repeatsSubmitted: bool,         // the same search text was already submitted
    repeatsNoEffect: bool,          // the same targets just had no effect
    calls: nat -> CallAnswer)

  // ---------------------------------------------------------------- specification

  /** Working state of one execution: the state, still with the old log, and the new events. */
  datatype Ctx = Ctx(s: WorkerState, added: Log)

  function NextSeq(c: Ctx): nat { |c.s.transition.events| + |c.added| }

  function Recorded(c: Ctx, name: ToolName, status: ResultStatus, candidate: Option<ActionDetail>, before: Screen): Ctx {
    var action := if candidate.Some? then Some(ObservedAction(NextSeq(c), candidate.value)) else None;
    c.(added := c.added + [Event(NextSeq(c), Some(name), status, action, before, None)])
  }

  function WithErrors(c: Ctx, errors: nat): Ctx {
    c.(s := c.s.(transition := c.s.transition.(errorCount := errors)))
  }

  function OneMoreError(c: Ctx): Ctx { WithErrors(c, c.s.transition.errorCount + 1) }

  function BeforeScreen(cfg: Cfg, s: WorkerState): Screen { Screen(cfg.urlTemplate(s.obs.url), s.obs.role) }

  function TransitionSource(source: Source): Source {
    if source in {Reflex, CardQueue, ResultsNavigation} then source else Autonomous
  }

  /** `set_transition_request`: extends the group of the same screen and source, or replaces the request. */
  function GroupedRequest(s: WorkerState, req: ActionRequest, seqNo: nat, name: ToolName, source: Source)
    : TransitionRequest
  {
    var existing := s.transition.request;
    var joins := existing.Some? && existing.value.beforeSequence == s.obs.sequence && existing.value.source == source;
    var seqs := if joins then existing.value.actionSeqs else [];
    var names := if joins then existing.value.actions else [];
    var planned := if req.replay.Some? then req.replay.value.actions else [];
    TransitionRequest(
      seqNo,
      if seqNo in seqs then seqs else seqs + [seqNo],
      name,
      s.obs.sequence,
      source,
      if source == Reflex then s.replay.trace.recipeKey else "",
      req.replay,
      if planned != [] then planned else if name in names then names else names + [name],
      if joins && existing.value.beforeUrl != "" then existing.value.beforeUrl else s.obs.url,
      if req.replay.Some? && req.replay.value.beforeRole != NoRole then req.replay.value.beforeRole else s.obs.role,
      if joins && existing.value.beforeScreenshot != "" then existing.value.beforeScreenshot else s.obs.screenshot,
      false)
  }

  function WithRequest(c: Ctx, request: TransitionRequest): Ctx {
    c.(s := c.s.(transition := c.s.transition.(request := Some(request))))
  }

  function Requested(c: Ctx, req: ActionRequest, seqNo: nat, name: ToolName, source: Source): Ctx {
    WithRequest(c, GroupedRequest(c.s, req, seqNo, name, source))
  }

  function Failed(cfg: Cfg, c: Ctx, req: ActionRequest, name: ToolName): Ctx {
    var logged := OneMoreError(Recorded(c, name, ErrorResult, None, BeforeScreen(cfg, c.s)));
    if req.source == Reflex
    then WithRequest(logged, GroupedRequest(logged.s, req, NextSeq(c), name, Reflex).(executionFailed := true))
    else logged
  }

  function UiMoved(s: WorkerState, call: ToolCall, answer: CallAnswer): WorkerState {
    s.(obs :=
      if call.name == OpenBrowser then s.obs.(url := answer.openedUrl, urlStale := answer.screenOpened)
      else s.obs.(urlStale := s.obs.urlStale || call.name !in {TypeInMarker, Scroll}))
  }

  /** `execute_ui_action` after a tool that did not fail. */
  function UiApplied(c: Ctx, req: ActionRequest, call: ToolCall, answer: CallAnswer): Ctx {
    var moved := c.(s := UiMoved(c.s, call, answer));
    if call.name != OpenBrowser || answer.screenOpened
    then Requested(moved, req, NextSeq(c), call.name, TransitionSource(req.source))
    else moved
  }

  predicate ClickMatchesQueue(queue: JobCardQueue.Queue, id: nat) {
    id != 0 && exists card | card in queue :: card.queueId == id
  }

  /** `activate_clicked_job_card` */
  function CardActivated(c: Ctx, call: ToolCall, status: ResultStatus): Ctx {
    if status == Success && call.name == ClickMarker && ClickMatchesQueue(c.s.collection.queue, call.queueId)
    then
      c.(s := c.s.(
        collection := c.s.collection.(queue := JobCardQueue.Activated(c.s.collection.queue, call.queueId)),
        stage := OpeningDetail))
    else c
  }

  function QueueStored(cfg: Cfg, c: Ctx, call: ToolCall, answer: CallAnswer): Ctx {
    var queue := JobCardQueue.MarkExisting(
      JobCardQueue.Normalized(c.s.collection.queue, call.cards, c.s.obs.markers), answer.existing);
    var s := c.s.(collection := c.s.collection.(queue := queue), stage := Results);
    c.(s := if JobCardQueue.ScopeComplete(queue, cfg.intent.mode, cfg.intent.target)
            then Finish(s, ScopeReason(cfg.intent)) else s)
  }

  function StateApplied(cfg: Cfg, c: Ctx, call: ToolCall, answer: CallAnswer): Ctx {
    if call.name == ReviewJobDetail then
      if answer.review in {LightweightReview, PrimaryReview}
      then c.(s := c.s.(collection := c.s.collection.(draft := Some(Draft(c.s.obs.url, answer.cardKey)))))
      else c
    else QueueStored(cfg, c, call, answer)
  }

  function StateStatus(c: Ctx, call: ToolCall, answer: CallAnswer): ResultStatus {
    if call.name == ReviewJobDetail then
      if answer.review in {LightweightReview, PrimaryReview} then Success else SkippedResult
    else if c.s.collection.queue != [] then Success else SkippedResult
  }

  predicate StateFails(call: ToolCall, answer: CallAnswer) {
    if call.name == ReviewJobDetail then answer.review == PreparationFailed else answer.status == ErrorResult
  }

  function FinishReason(source: Source): CompletionReason {
    match source
    case ReasoningPolicy => ReasoningLimit
    case ScreenPolicy => ScreenUnavailable
    case _ => AgentFinished
  }

  /** One call, and whether the next one follows. */
  function CallExecuted(cfg: Cfg, c: Ctx, req: ActionRequest, call: ToolCall, answer: CallAnswer): (Ctx, bool) {
    var before := BeforeScreen(cfg, c.s);
    if IsUiAction(call.name) then
      if answer.policyBlocked then (OneMoreError(Recorded(c, call.name, ErrorResult, None, before)), false)
      else if call.name == CloseCurrentTab && !answer.goBackHadNoEffect
      then (OneMoreError(Recorded(c, call.name, SkippedResult, None, before)), false)
      else if answer.status == ErrorResult then (Failed(cfg, c, req, call.name), false)
      else
        var applied := CardActivated(UiApplied(c, req, call, answer), call, answer.status);
        (WithErrors(Recorded(applied, call.name, answer.status, answer.candidate, before), 0), true)
    else if call.name == FinishTask then
      var finished := c.(s := Finish(c.s, FinishReason(req.source)));
      (WithErrors(Recorded(finished, call.name, Success, None, before), 0), false)
    else if StateFails(call, answer) then (Failed(cfg, c, req, call.name), false)
    else
      // The source resets the error counter in a copy of the state that a state action has just replaced.
      var applied := StateApplied(cfg, c, call, answer);
      (Recorded(applied, call.name, StateStatus(applied, call, answer), None, before), true)
  }

  function CallsExecuted(cfg: Cfg, c: Ctx, req: ActionRequest, env: ExecutionAnswers, i: nat): Ctx
    requires i <= |req.calls|
    decreases |req.calls| - i
  {
    if i == |req.calls| then c
    else
      var (next, goOn) := CallExecuted(cfg, c, req, req.calls[i], env.calls(i));
      if goOn then CallsExecuted(cfg, next, req, env, i + 1) else next
  }

  lemma CallsStep(cfg: Cfg, c: Ctx, req: ActionRequest, env: ExecutionAnswers, i: nat, next: Ctx, goOn: bool)
    requires i < |req.calls| && (next, goOn) == CallExecuted(cfg, c, req, req.calls[i], env.calls(i))
    ensures CallsExecuted(cfg, c, req, env, i) == if goOn then CallsExecuted(cfg, next, req, env, i + 1) else next
  {}

  /** Only a typed search text can repeat a submitted one. */
  predicate RepeatsSubmitted(s: WorkerState, req: ActionRequest, env: ExecutionAnswers) {
    && req.source == Llm && s.obs.role == Search && env.repeatsSubmitted
    && exists call | call in req.calls :: call.name == TypeInMarker
  }

  /** The actions whose target can repeat an earlier one; no other call is ever a repetition. */
  predicate HasTarget(name: ToolName) {
    name in {ClickMarker, TypeInMarker, PressKey, SwitchTab, OpenBrowser, GoBack, CloseCurrentTab}
  }

  predicate RepeatsNoEffect(req: ActionRequest, env: ExecutionAnswers) {
    env.repeatsNoEffect && forall call | call in req.calls :: HasTarget(call.name)
  }

  function RequestExecuted(cfg: Cfg, c: Ctx, req: ActionRequest, env: ExecutionAnswers): Ctx
    requires req.calls != []
  {
    var skipped := Recorded(c, req.calls[0].name, SkippedResult, None, BeforeScreen(cfg, c.s));
    if RepeatsSubmitted(c.s, req, env) then skipped
    else if RepeatsNoEffect(req, env) then OneMoreError(skipped)
    else CallsExecuted(cfg, c, req, env, 0)
  }

  /** `finish_state` */
  function FinishedState(c: Ctx): WorkerState {
    var request := c.s.transition.request;
    c.s.(
      decision := c.s.decision.(pending := None),
      transition := c.s.transition.(
        events := c.s.transition.events + c.added,
        result := if request.Some? then ResultFor(request, WaitingCapture, NoReason, false)
                  else c.s.transition.result))
  }

  /** `_missing_action_update` */
  function MissingAction(s: WorkerState): WorkerState {
    s.(decision := s.decision.(pending := None),
       transition := s.transition.(events := s.transition.events +
         [Event(|s.transition.events|, None, ErrorResult, None, Screen("", NoRole), None)]))
  }

  /** `execution_node` */
  function Execute(cfg: Cfg, s: WorkerState, env: ExecutionAnswers): WorkerState {
    if s.decision.pending.None? || s.decision.pending.value.calls == [] then MissingAction(s)
    else FinishedState(RequestExecuted(cfg, Ctx(s, []), s.decision.pending.value, env))
  }

  /**
   The consecutive-error counter after a call that neither failed nor was
   blocked: screen actions and a finish reset it, a state action leaves it as
   it was.
   */
  lemma ErrorCounterAfterSuccess(cfg: Cfg, c: Ctx, req: ActionRequest, call: ToolCall, answer: CallAnswer)
    requires IsUiAction(call.name) ==> !answer.policyBlocked && (call.name == CloseCurrentTab ==> answer.goBackHadNoEffect)
    requires IsUiAction(call.name) ==> answer.status != ErrorResult
    requires call.name in {ReviewJobDetail, SetJobCardQueue} ==> !StateFails(call, answer)
    ensures CallExecuted(cfg, c, req, call, answer).0.s.transition.errorCount ==
      if call.name in {ReviewJobDetail, SetJobCardQueue} then c.s.transition.errorCount else 0
  {}

  // -------------------------------------------------------------- imperative form

  class WorkerExecutionContext {
    const cfg: Cfg
    const request: ActionRequest
    const priorEvents: Log
    var state: WorkerState
    var newEvents: Log

    ghost predicate Valid() reads this { state.transition.events == priorEvents }

    ghost function Model(): Ctx reads this { Ctx(state, newEvents) }

    constructor FromState(cfg: Cfg, state: WorkerState, request: ActionRequest)
      ensures Valid() && Model() == Ctx(state, [])
      ensures this.cfg == cfg && this.request == request
    {
      this.cfg, this.request, this.state := cfg, request, state;
      priorEvents, newEvents := state.transition.events, [];
    }

    function NextActionSequence(): (n: nat)
      requires Valid()
      reads this
      ensures n == NextSeq(Model())
    {
      |priorEvents| + |newEvents|
    }

    method RecordActionResult(
        name: ToolName, status: ResultStatus, candidate: Option<ActionDetail>, before: Screen, seqNo: nat)
      requires Valid() && seqNo == NextSeq(Model())
      modifies this`newEvents
      ensures Valid() && Model() == Recorded(old(Model()), name, status, candidate, before)
    {
      var action := None;
      if candidate.Some? { action := Some(ObservedAction(seqNo, candidate.value)); }
      newEvents := newEvents + [Event(seqNo, Some(name), status, action, before, None)];
    }

    method SetErrorCount(errors: nat)
      requires Valid()
      modifies this`state
      ensures Valid() && Model() == WithErrors(old(Model()), errors)
    {
      state := state.(transition := state.transition.(errorCount := errors));
    }

    method SetTransitionRequest(seqNo: nat, name: ToolName, source: Source)
      requires Valid()
      modifies this`state
      ensures Valid() && Model() == Requested(old(Model()), request, seqNo, name, source)
    {
      state := state.(transition := state.transition.(
        request := Some(GroupedRequest(state, request, seqNo, name, source))));
    }

    method RecordFailedCall(name: ToolName, seqNo: nat)
      requires Valid() && seqNo == NextSeq(Model())
      modifies this
      ensures Valid() && Model() == Failed(cfg, old(Model()), request, name)
    {
      RecordActionResult(name, ErrorResult, None, BeforeScreen(cfg, state), seqNo);
      SetErrorCount(state.transition.errorCount + 1);
      if request.source == Reflex {
        SetTransitionRequest(seqNo, name, Reflex);
        var failed := state.transition.request.value.(executionFailed := true);
        state := state.(transition := state.transition.(request := Some(failed)));
      }
    }

    /** One event, at most one more error: the request stops here. */
    method RecordGuardResult(name: ToolName, status: ResultStatus, countsError: bool)
      requires Valid()
      modifies this
      ensures Valid()
      ensures var r := Recorded(old(Model()), name, status, None, BeforeScreen(cfg, old(state)));
        Model() == if countsError then OneMoreError(r) else r
    {
      RecordActionResult(name, status, None, BeforeScreen(cfg, state), NextActionSequence());
      if countsError { SetErrorCount(state.transition.errorCount + 1); }
    }

    method GuardActionRequest(env: ExecutionAnswers) returns (stop: bool)
      requires Valid() && request.calls != []
      modifies this
      ensures Valid()
      ensures stop == (RepeatsSubmitted(old(state), request, env) || RepeatsNoEffect(request, env))
      ensures if stop then Model() == RequestExecuted(cfg, old(Model()), request, env) else Model() == old(Model())
    {
      if RepeatsSubmitted(state, request, env) {
        RecordGuardResult(request.calls[0].name, SkippedResult, false);
        return true;
      }
      if RepeatsNoEffect(request, env) {
        RecordGuardResult(request.calls[0].name, SkippedResult, true);
        return true;
      }
      return false;
    }

    method GuardUiAction(name: ToolName, answer: CallAnswer) returns (stop: bool)
      requires Valid()
      modifies this
      ensures Valid()
      ensures stop == (answer.policyBlocked || (name == CloseCurrentTab && !answer.goBackHadNoEffect))
      ensures if !stop then Model() == old(Model())
        else Model() == OneMoreError(Recorded(
          old(Model()), name, if answer.policyBlocked then ErrorResult else SkippedResult, None, BeforeScreen(cfg, old(state))))
    {
      if answer.policyBlocked {
        RecordGuardResult(name, ErrorResult, true);
        return true;
      }
      if name == CloseCurrentTab && !answer.goBackHadNoEffect {
        RecordGuardResult(name, SkippedResult, true);
        return true;
      }
      return false;
    }

    method ExecuteUiAction(call: ToolCall, answer: CallAnswer, seqNo: nat)
      requires Valid() && seqNo == NextSeq(Model()) && answer.status != ErrorResult
      modifies this`state
      ensures Valid() && Model() == UiApplied(old(Model()), request, call, answer)
    {
      var screenChanged := true;
      var obs := state.obs;
      if call.name == OpenBrowser {
        screenChanged := answer.screenOpened;
        obs := obs.(url := answer.openedUrl, urlStale := screenChanged);
      } else {
        obs := obs.(urlStale := obs.urlStale || call.name !in {TypeInMarker, Scroll});
      }
      state := state.(obs := obs);
      if screenChanged {
        SetTransitionRequest(seqNo, call.name, TransitionSource(request.source));
      }
    }

    method ActivateClickedJobCard(call: ToolCall, status: ResultStatus)
      requires Valid()
      modifies this`state
      ensures Valid() && Model() == CardActivated(old(Model()), call, status)
    {
      if status == Success && call.name == ClickMarker && ClickMatchesQueue(state.collection.queue, call.queueId) {
        var queue := JobCardQueue.ActivateJobCard(state.collection.queue, call.queueId);
        state := state.(collection := state.collection.(queue := queue), stage := OpeningDetail);
      }
    }

    method ExecuteStateAction(call: ToolCall, answer: CallAnswer)
      requires Valid() && call.name in {ReviewJobDetail, SetJobCardQueue} && !StateFails(call, answer)
      modifies this`state
      ensures Valid() && Model() == StateApplied(cfg, old(Model()), call, answer)
    {
      if call.name == ReviewJobDetail {
        if answer.review in {LightweightReview, PrimaryReview} {
          state := state.(collection := state.collection.(draft := Some(Draft(state.obs.url, answer.cardKey))));
        }
        return;
      }
      var queue := JobCardQueue.NormalizeJobCardQueue(state.collection.queue, call.cards, state.obs.markers);
      var traced;
      queue, traced := JobCardQueue.MarkExistingJobCards(queue, answer.existing);
      state := state.(collection := state.collection.(queue := queue), stage := Results);
      if JobCardQueue.ScopeComplete(queue, cfg.intent.mode, cfg.intent.target) {
        state := Finish(state, ScopeReason(cfg.intent));
      }
    }

    /** `_execute_tool_call` and what follows it for one call; false stops the request. */
    method ExecuteToolCall(call: ToolCall, answer: CallAnswer) returns (goOn: bool)
      requires Valid()
      modifies this
      ensures Valid() && (Model(), goOn) == CallExecuted(cfg, old(Model()), request, call, answer)
    {
      var before, seqNo := BeforeScreen(cfg, state), NextActionSequence();
      if IsUiAction(call.name) {
        var stop := GuardUiAction(call.name, answer);
        if stop { return false; }
        if answer.status == ErrorResult {
          RecordFailedCall(call.name, seqNo);
          return false;
        }
        ExecuteUiAction(call, answer, seqNo);
        ActivateClickedJobCard(call, answer.status);
        RecordActionResult(call.name, answer.status, answer.candidate, before, seqNo);
        SetErrorCount(0);
        return true;
      }
      if call.name == FinishTask {
        state := Finish(state, FinishReason(request.source));
        RecordActionResult(call.name, Success, None, before, seqNo);
        SetErrorCount(0);
        return false;
      }
      if StateFails(call, answer) {
        RecordFailedCall(call.name, seqNo);
        return false;
      }
      ExecuteStateAction(call, answer);
      RecordActionResult(call.name, StateStatus(Ctx(state, newEvents), call, answer), None, before, seqNo);
      return true;
    }

    method ExecuteNextCall(env: ExecutionAnswers, i: nat) returns (goOn: bool)
      requires Valid() && i < |request.calls|
      modifies this
      ensures Valid()
      ensures CallsExecuted(cfg, old(Model()), request, env, i) ==
        if goOn then CallsExecuted(cfg, Model(), request, env, i + 1) else Model()
    {
      ghost var before := Model();
      goOn := ExecuteToolCall(request.calls[i], env.calls(i));
      CallsStep(cfg, before, request, env, i, Model(), goOn);
    }

    /** The loop over the calls of the request. */
    method ExecuteCalls(env: ExecutionAnswers)
      requires Valid()
      modifies this
      ensures Valid() && Model() == CallsExecuted(cfg, old(Model()), request, env, 0)
    {
      ghost var goal := CallsExecuted(cfg, Model(), request, env, 0);
      var i, goOn := 0, true;
      while goOn && i < |request.calls|
        invariant 0 <= i <= |request.calls| && Valid()
        invariant goal == if goOn then CallsExecuted(cfg, Model(), request, env, i) else Model()
      {
        goOn := ExecuteNextCall(env, i);
        i := i + 1;
      }
    }

    method ExecuteActionRequest(env: ExecutionAnswers)
      requires Valid() && request.calls != []
      modifies this
      ensures Valid() && Model() == RequestExecuted(cfg, old(Model()), request, env)
    {
      var stop := GuardActionRequest(env);
      if !stop { ExecuteCalls(env); }
    }

    method FinishState() returns (result: WorkerState)
      requires Valid()
      modifies this`state
      ensures result == FinishedState(old(Model()))
    {
      state := state.(decision := state.decision.(pending := None));
      state := state.(transition := state.transition.(events := priorEvents + newEvents));
      if state.transition.request.Some? {
        state := state.(transition := state.transition.(
          result := ResultFor(state.transition.request, WaitingCapture, NoReason, false)));
      }
      return state;
    }
  }

  method ExecutionNode(cfg: Cfg, s: WorkerState, env: ExecutionAnswers) returns (result: WorkerState)
    ensures result == Execute(cfg, s, env)
  {
    if s.decision.pending.None? || s.decision.pending.value.calls == [] {
      return MissingAction(s);
    }
    var context := new WorkerExecutionContext.FromState(cfg, s, s.decision.pending.value);
    context.ExecuteActionRequest(env);
    result := context.FinishState();
  }
}
