/**
 The worker graph (agent/graph/workflow.py): its nodes, routers and runs, and
 the invariant every reachable configuration satisfies.
 */
module WorkerGraph {
  import opened Prelude
  import opened ExecutionRecord
  import opened WorkerContracts
  import opened JobCardQueue
  import opened ReplayRuntime
  import opened WorkerTransition
  import opened WorkerSelection
  import opened WorkerReasoning
  import opened WorkerCycle
  import opened WorkerExecution
  import opened WorkerReview

  datatype Node = AtObservation | AtDecision | AtExecution | AtReview | AtEnd | Crashed

  datatype Config = Config(node: Node, s: WorkerState)

  /** The outside world's answers to one node. */
  datatype World = World(sight: Sight, answers: Answers, execution: ExecutionAnswers, review: Review)

  // ---------------------------------------------------------------------- routers

  function RouteAfterStart(s: WorkerState): Node {
    if s.obs.lowInfo || ObservationReady(s) then AtDecision else AtObservation
  }

  /** Crashed is the RuntimeError for a decision without action or end. */
  function RouteAfterDecision(s: WorkerState): Node {
    if s.lifecycle.finished then AtEnd
    else if s.decision.pending.Some? then AtExecution
    else if s.obs.lowInfo then AtObservation
    else Crashed
  }

  function RouteAfterExecution(s: WorkerState): Node {
    if s.lifecycle.finished || s.transition.errorCount >= 3 then AtEnd
    else if s.collection.draft.Some? then AtReview
    else if s.transition.request.Some? then AtObservation
    else AtDecision
  }

  function RouteAfterReview(s: WorkerState): Node {
    if s.lifecycle.finished then AtEnd else AtDecision
  }

  function Start(url: string, openStatus: ResultStatus): Config {
    var s := InitialState(url, openStatus);
    Config(RouteAfterStart(s), s)
  }

  function Next(cfg: Cfg, c: Config, w: World): Config {
    match c.node
    case AtObservation => Config(AtDecision, Observe(cfg, c.s, w.sight))
    case AtDecision =>
      (match Decide(cfg, c.s, w.answers)
       case None => Config(Crashed, c.s)
       case Some(r) => Config(RouteAfterDecision(r), r))
    case AtExecution => var r := Execute(cfg, c.s, w.execution); Config(RouteAfterExecution(r), r)
    case AtReview => var r := ReviewDraft(cfg, c.s, w.review); Config(RouteAfterReview(r), r)
    case _ => c
  }

  // -------------------------------------------------------------------- invariant

  /** What a finished run says about its completion reason. */
  ghost predicate CompletionOk(cfg: Cfg, s: WorkerState) {
    && (s.lifecycle.finished <==> s.lifecycle.reason != NotCompleted)
    && (s.lifecycle.reason == TargetReached ==>
          && cfg.intent.target > 0
          && (|s.collection.captures| >= cfg.intent.target || ResolvedCount(s.collection.queue) >= cfg.intent.target))
    && (s.lifecycle.reason == VisibleScopeCompleted ==>
          cfg.intent.target == 0 && s.collection.queue != [] && !Unresolved(s.collection.queue))
  }

  ghost predicate Core(cfg: Cfg, s: WorkerState) {
    && WellKept(s.collection.queue)
    && DistinctCaptures(cfg, s.collection.captures)
    && LogOk(s.transition)
    && ReplayOk(s.replay, s.transition.request)
    && s.decision.stageCalls <= cfg.callLimit
    && CompletionOk(cfg, s)
    && (s.transition.result.status == PendingCapture ==> s.obs.lowInfo)
    && (!s.obs.lowInfo ==> s.obs.lowCount == 0)
  }

  /** Neither finished, nor waiting for an execution or a review. */
  ghost predicate Open(s: WorkerState) {
    !s.lifecycle.finished && s.decision.pending.None? && s.collection.draft.None? && s.transition.errorCount <= 2
  }

  predicate Captured(s: WorkerState) { s.obs.sequence > 0 && s.obs.screenshot != "" }

  /** An unjudged request waits for OCR, or for a readable screen. */
  predicate RequestShape(s: WorkerState) {
    s.transition.request.Some? ==>
      || (s.transition.result.status == NeedsOcr && !s.obs.ocrComplete && !s.obs.lowInfo)
      || (s.transition.result.status == PendingCapture && s.obs.lowInfo)
  }

  predicate CallOk(s: WorkerState, req: ActionRequest, call: ToolCall) {
    && (call.name == SetJobCardQueue ==> |req.calls| == 1 && !Unresolved(s.collection.queue))
    && (call.name == ReviewJobDetail ==> |req.calls| == 1 && s.transition.request.None? && !s.obs.lowInfo)
    && (call.queueId != 0 ==>
          && |req.calls| == 1
          && !HasActive(s.collection.queue) && HasPending(s.collection.queue)
          && call.queueId == FirstPending(s.collection.queue) + 1)
  }

  predicate PendingOk(s: WorkerState, req: ActionRequest) {
    && req.calls != []
    && SupportedGroup(req.calls)
    && (forall call | call in req.calls :: CallOk(s, req, call))
    && (req.source == Reflex ==>
          && s.replay.session.Some? && s.replay.session.value.PendingIsCurrent()
          && s.replay.session.value.recipeKey == s.replay.trace.recipeKey
          && IsStepOf(req.replay, s.replay.session.value)
          && forall call | call in req.calls :: IsUiAction(call.name))
    && (s.obs.lowInfo ==> req == PolicyRequest(ScreenPolicy, FinishTask))
  }

  ghost predicate Inv(cfg: Cfg, c: Config) {
    var s := c.s;
    Core(cfg, s) &&
    match c.node
    case AtObservation =>
      Open(s) && !LastIsReview(s) && (s.obs.lowInfo ==> s.obs.lowCount < cfg.maxLowCycles)
    case AtDecision =>
      && Open(s) && Captured(s) && RequestShape(s)
      && (LastIsReview(s) ==> s.transition.request.None? && !s.obs.lowInfo)
      && (s.obs.lowInfo ==> s.obs.lowCount <= cfg.maxLowCycles)
    case AtExecution =>
      && s.decision.pending.Some? && PendingOk(s, s.decision.pending.value)
      && !s.lifecycle.finished && s.collection.draft.None? && Captured(s)
      && (s.obs.lowInfo ==> s.obs.lowCount <= cfg.maxLowCycles)
    case AtReview =>
      && !s.lifecycle.finished && s.decision.pending.None? && s.transition.errorCount <= 2
      && s.collection.draft.Some? && s.transition.request.None? && Captured(s) && !s.obs.lowInfo
    case AtEnd => s.obs.lowInfo ==> s.obs.lowCount <= cfg.maxLowCycles
    case Crashed => false
  }

  lemma StartOk(cfg: Cfg, url: string, openStatus: ResultStatus)
    ensures Inv(cfg, Start(url, openStatus))
    ensures Start(url, openStatus).node == AtObservation
  {}

  // ------------------------------------------------------------------ observation

  lemma ObserveKeepsInv(cfg: Cfg, s: WorkerState, sight: Sight)
    requires Inv(cfg, Config(AtObservation, s))
    ensures Inv(cfg, Config(AtDecision, Observe(cfg, s, sight)))
    ensures Observe(cfg, s, sight).collection == s.collection
  {
    var captured := CaptureScreen(s, sight);
    if !captured.obs.lowInfo && captured.transition.request.Some? {
      var request := captured.transition.request.value;
      var v := DecideBeforeOcr(cfg, captured.obs, request, sight.see);
      VerdictsBlockFailures(cfg, captured.obs, request, sight.see, false);
      if v.status != NeedsOcr {
        CompletedKeepsLog(cfg, captured, request, v, sight.see.visualChanged);
        CompletedKeepsReplay(cfg, captured, request, v, sight.see.visualChanged);
        assert forall i :: 0 <= i < |s.transition.events| ==>
          var r := Completed(cfg, captured, request, v, sight.see.visualChanged).transition.events;
          r[i].(transition := None) == s.transition.events[i].(transition := None);
        LastKept(s.transition.events, Completed(cfg, captured, request, v, sight.see.visualChanged).transition.events);
      }
    }
  }

  /** Attaching a transition leaves the tools of the log alone. */
  lemma LastKept(log: Log, r: Log)
    requires |r| == |log| && log != []
    requires forall i :: 0 <= i < |log| ==> r[i].(transition := None) == log[i].(transition := None)
    ensures r[|r| - 1].tool == log[|log| - 1].tool
  {
    var n := |log| - 1;
    assert r[n].tool == r[n].(transition := None).tool;
    assert log[n].tool == log[n].(transition := None).tool;
  }

  // --------------------------------------------------------------------- decision

  ghost predicate Deciding(cfg: Cfg, s: WorkerState) { Inv(cfg, Config(AtDecision, s)) }

  /** The decision is made, and the router sends it to a node that can take it. */
  ghost predicate Decided(cfg: Cfg, s: WorkerState) { Inv(cfg, Config(RouteAfterDecision(s), s)) }

  /** A readable screen without an unjudged request. */
  predicate Clear(s: WorkerState) { !s.obs.lowInfo && s.transition.request.None? }

  lemma SkippedToKeeps(cfg: Cfg, s: WorkerState, queue: Queue)
    requires Deciding(cfg, s) && !s.obs.lowInfo && s.replay.session.None? && WellKept(queue)
    ensures var r := SkippedTo(cfg, s, queue);
      && r.collection.queue == queue
      && (if r.lifecycle.finished then Decided(cfg, r) else Deciding(cfg, r) && Clear(r))
  {}

  lemma SkipKeeps(cfg: Cfg, s: WorkerState, jobId: Option<int>)
    requires Deciding(cfg, s) && !s.obs.lowInfo && s.replay.session.None?
    ensures var r := SkipDuplicateDetail(cfg, s, jobId);
      && QueueStep(s.collection.queue, r.collection.queue) && !HasActive(r.collection.queue)
      && (if r.lifecycle.finished then Decided(cfg, r) else Deciding(cfg, r) && Clear(r))
  {
    SettleOne(s.collection.queue, SkipExisting(jobId));
    SkippedToKeeps(cfg, s, SettleActive(s.collection.queue, SkipExisting(jobId)));
  }

  lemma ProposeKeeps(cfg: Cfg, s: WorkerState, req: ActionRequest)
    requires Deciding(cfg, s) && PendingOk(s, req)
    ensures Decided(cfg, Propose(s, req)) && Resolved(Propose(s, req))
  {}

  lemma SelectOnLowScreen(cfg: Cfg, s: WorkerState, found: Lookup)
    requires Deciding(cfg, s) && s.obs.lowInfo
    ensures var r := Select(cfg, s, found); r.collection == s.collection && Resolved(r) && Decided(cfg, r)
  {
    if s.obs.lowCount >= cfg.maxLowCycles { ProposeKeeps(cfg, s, PolicyRequest(ScreenPolicy, FinishTask)); }
  }

  lemma SelectKeeps(cfg: Cfg, s: WorkerState, found: Lookup)
    requires Deciding(cfg, s)
    ensures var r := Select(cfg, s, found);
      && QueueStep(s.collection.queue, r.collection.queue)
      && (r.collection.queue == s.collection.queue || !HasActive(r.collection.queue))
      && (!HasActive(s.collection.queue) ==> r.collection.queue == s.collection.queue)
      && (if Resolved(r) then Decided(cfg, r) else Deciding(cfg, r) && !r.obs.lowInfo)
      && (Clear(s) && !Resolved(r) ==> Clear(r))
  {
    if s.obs.lowInfo {
      SelectOnLowScreen(cfg, s, found);
    } else if s.replay.session.None? {
      if HasActive(s.collection.queue) && cfg.isDetailUrl(s.obs.url) && found.duplicate.Some? {
        SkipKeeps(cfg, s, found.duplicate.value);
      } else if ResultsNavigationStep(cfg, s).Some? {
        ProposeKeeps(cfg, s, PolicyRequest(ResultsNavigation, ResultsNavigationStep(cfg, s).value));
      } else if CanSelectPendingCard(cfg, s) {
        ProposeKeeps(cfg, s, QueuedCardRequest(s.collection.queue));
      }
    }
  }

  lemma ReasonKeeps(cfg: Cfg, s: WorkerState, env: Reflection)
    requires Deciding(cfg, s) && Clear(s)
    ensures Decided(cfg, ReasonNext(cfg, s, env))
    ensures ReasonNext(cfg, s, env).decision.pending.Some?
  {
    ReasoningIsGated(cfg, s, env);
  }

  lemma TryReflexKeeps(cfg: Cfg, s: WorkerState, rules: seq<RuleCandidate>)
    requires Deciding(cfg, s) && Clear(s)
    ensures var r := TryReflex(cfg, s, rules);
      && r.collection == s.collection
      && r.transition == s.transition
      && (if HasReflexAction(r) then Decided(cfg, r) else Deciding(cfg, r) && Clear(r))
  {
    if cfg.reflexEnabled && !ReflexMissed(s) {
      AttemptKeepsReplay(s, rules);
    }
  }

  /** Judging the open request on a read capture leaves nothing to judge. */
  lemma JudgedIsClear(cfg: Cfg, s: WorkerState, request: TransitionRequest, see: Screening, changed: bool)
    requires Core(cfg, s) && Open(s) && Captured(s) && !s.obs.lowInfo && s.transition.request == Some(request)
    requires !LastIsReview(s)
    ensures var v := DecideAfterOcr(cfg, s.obs, request, see, changed);
      var r := Completed(cfg, s, request, v, changed);
      Deciding(cfg, r) && Clear(r) && r.collection == s.collection
  {
    var v := DecideAfterOcr(cfg, s.obs, request, see, changed);
    VerdictsBlockFailures(cfg, s.obs, request, see, changed);
    CompletedKeepsLog(cfg, s, request, v, changed);
    CompletedKeepsReplay(cfg, s, request, v, changed);
    var after := Completed(cfg, s, request, v, changed).transition.events;
    assert forall i :: 0 <= i < |after| ==> after[i].(transition := None) == s.transition.events[i].(transition := None);
    LastKept(s.transition.events, after);
  }

  lemma OcrKeeps(cfg: Cfg, s: WorkerState, result: OcrResult)
    requires Deciding(cfg, s) && !s.obs.lowInfo
    ensures Ocr(s, result).Some?
    ensures var r := Ocr(s, result).value;
      && Core(cfg, r) && Open(r) && Captured(r) && !r.obs.lowInfo && r.obs.ocrComplete
      && r.transition == s.transition && r.collection == s.collection
  {}

  lemma RunOcrKeeps(cfg: Cfg, s: WorkerState, result: OcrResult)
    requires Deciding(cfg, s) && !s.obs.lowInfo
    ensures var r := RunOcr(cfg, s, result);
      r.Some? && Deciding(cfg, r.value) && Clear(r.value) && r.value.collection == s.collection
  {
    OcrKeeps(cfg, s, result);
    var read := Ocr(s, result).value;
    if read.transition.request.Some? {
      JudgedIsClear(cfg, read, read.transition.request.value, result.see, read.transition.result.visualChanged);
    }
  }

  lemma PrepareKeeps(cfg: Cfg, s: WorkerState, a: Answers)
    requires Deciding(cfg, s) && !s.obs.lowInfo
    ensures var r := Prepare(cfg, s, a);
      && r.Some?
      && QueueStep(s.collection.queue, r.value.collection.queue)
      && (!HasActive(s.collection.queue) ==> r.value.collection.queue == s.collection.queue)
      && (if Resolved(r.value) then Decided(cfg, r.value) else Deciding(cfg, r.value) && Clear(r.value))
  {
    if !ObservationReady(s) {
      var tried := s;
      if s.transition.result.status !in {NeedsOcr, Unknown} {
        TryReflexKeeps(cfg, s, a.rulesBeforeOcr);
        tried := TryReflex(cfg, s, a.rulesBeforeOcr);
      }
      if s.transition.result.status in {NeedsOcr, Unknown} || !HasReflexAction(tried) {
        RunOcrKeeps(cfg, tried, a.ocr);
        SelectKeeps(cfg, RunOcr(cfg, tried, a.ocr).value, a.second);
      }
    }
  }

  lemma DeliberateKeeps(cfg: Cfg, s: WorkerState, a: Answers)
    requires Deciding(cfg, s) && Clear(s)
    ensures var r := Deliberate(cfg, s, a);
      Decided(cfg, r) && r.collection == s.collection && r.decision.pending.Some?
  {
    TryReflexKeeps(cfg, s, a.rulesAfterOcr);
    var tried := TryReflex(cfg, s, a.rulesAfterOcr);
    ReasonKeeps(cfg, s, a.reflection);
    if !HasReflexAction(tried) { ReasonKeeps(cfg, tried, a.reflection); }
  }

  /** The decision node never raises, and always ends with an action, an end, or a screen to read again. */
  lemma DecideKeepsInv(cfg: Cfg, s: WorkerState, a: Answers)
    requires Inv(cfg, Config(AtDecision, s))
    ensures var r := Decide(cfg, s, a);
      r.Some? && Inv(cfg, Config(RouteAfterDecision(r.value), r.value)) &&
      QueueStep(s.collection.queue, r.value.collection.queue)
  {
    if ReviewFollowUpDue(s) {
      ReasonKeeps(cfg, s, a.reflection);
    } else {
      SelectKeeps(cfg, s, a.first);
      var selected := Select(cfg, s, a.first);
      if !Resolved(selected) {
        PrepareKeeps(cfg, selected, a);
        var ready := Prepare(cfg, selected, a).value;
        if !Resolved(ready) { DeliberateKeeps(cfg, ready, a); }
      }
    }
  }

  // -------------------------------------------------------------------- execution

  /** The request carries the step the open session waits for. */
  predicate RuleReady(replay: Replay, req: ActionRequest) {
    && replay.session.Some? && replay.session.value.PendingIsCurrent()
    && replay.session.value.recipeKey == replay.trace.recipeKey
    && IsStepOf(req.replay, replay.session.value)
  }

  /** The log and replay facts hold of the log as it will be written back. */
  ghost predicate CtxOk(c: Ctx, req: ActionRequest) {
    && LogOk(c.s.transition.(events := c.s.transition.events + c.added))
    && ReplayOk(c.s.replay, c.s.transition.request)
    && (req.source == Reflex ==> RuleReady(c.s.replay, req))
  }

  /** What no call of a request changes. */
  predicate SameFrame(s: WorkerState, r: WorkerState) {
    && r.replay == s.replay
    && r.decision == s.decision
    && r.transition.events == s.transition.events
    && r.transition.result == s.transition.result
    && r.obs == s.obs.(url := r.obs.url, urlStale := r.obs.urlStale)
  }

  /** The open request after a call: the old one, or one for this call, maybe joining the old group. */
  ghost predicate RequestStep(c: Ctx, req: ActionRequest, next: Option<TransitionRequest>) {
    var open := c.s.transition.request;
    next == open ||
    (&& next.Some?
     && next.value.actionSeq == NextSeq(c)
     && next.value.beforeSequence == c.s.obs.sequence
     && (next.value.beforeScreenshot == c.s.obs.screenshot ||
         (open.Some? && open.value.beforeSequence == c.s.obs.sequence &&
          next.value.beforeScreenshot == open.value.beforeScreenshot))
     && next.value.actionSeqs != []
     && (next.value.actionSeqs[0] == NextSeq(c) ||
         (open.Some? && open.value.actionSeqs != [] && next.value.actionSeqs[0] == open.value.actionSeqs[0]))
     && (next.value.source == Reflex ==>
           req.source == Reflex && next.value.recipeKey == c.s.replay.trace.recipeKey &&
           next.value.replay == req.replay))
  }

  /** What every call does: one event with the next number, and a `RequestStep`. */
  ghost predicate CallStep(c: Ctx, req: ActionRequest, name: ToolName, r: Ctx) {
    && SameFrame(c.s, r.s)
    && (exists e: Event ::
          r.added == c.added + [e] && e.seqNo == NextSeq(c) && e.tool == Some(name) && e.transition.None?)
    && RequestStep(c, req, r.s.transition.request)
  }

  lemma FailedIsCallStep(cfg: Cfg, c: Ctx, req: ActionRequest, name: ToolName)
    ensures CallStep(c, req, name, Failed(cfg, c, req, name))
  {
    var r := Failed(cfg, c, req, name);
    assert r.added == c.added + [r.added[|c.added|]];
  }

  lemma RecordedIsCallStep(
      c: Ctx, req: ActionRequest, m: Ctx, name: ToolName, status: ResultStatus, candidate: Option<ActionDetail>,
      before: Screen, errors: nat)
    requires SameFrame(c.s, m.s) && m.added == c.added && RequestStep(c, req, m.s.transition.request)
    ensures CallStep(c, req, name, Recorded(m, name, status, candidate, before))
    ensures CallStep(c, req, name, WithErrors(Recorded(m, name, status, candidate, before), errors))
  {
    var r := Recorded(m, name, status, candidate, before);
    assert r.added == c.added + [r.added[|c.added|]];
  }

  lemma UiAppliedStep(c: Ctx, req: ActionRequest, call: ToolCall, answer: CallAnswer)
    ensures var m := CardActivated(UiApplied(c, req, call, answer), call, answer.status);
      SameFrame(c.s, m.s) && m.added == c.added && RequestStep(c, req, m.s.transition.request)
  {
    var m := UiApplied(c, req, call, answer);
    assert SameFrame(c.s, m.s) && m.added == c.added && RequestStep(c, req, m.s.transition.request);
    assert SameFrame(m.s, CardActivated(m, call, answer.status).s);
  }

  lemma UiIsCallStep(cfg: Cfg, c: Ctx, req: ActionRequest, call: ToolCall, answer: CallAnswer)
    requires IsUiAction(call.name)
    ensures CallStep(c, req, call.name, CallExecuted(cfg, c, req, call, answer).0)
  {
    var before := BeforeScreen(cfg, c.s);
    var errors := c.s.transition.errorCount + 1;
    RecordedIsCallStep(c, req, c, call.name, ErrorResult, None, before, errors);
    RecordedIsCallStep(c, req, c, call.name, SkippedResult, None, before, errors);
    FailedIsCallStep(cfg, c, req, call.name);
    UiAppliedStep(c, req, call, answer);
    RecordedIsCallStep(c, req, CardActivated(UiApplied(c, req, call, answer), call, answer.status),
                       call.name, answer.status, answer.candidate, before, 0);
  }

  lemma StateIsCallStep(cfg: Cfg, c: Ctx, req: ActionRequest, call: ToolCall, answer: CallAnswer)
    requires !IsUiAction(call.name)
    ensures CallStep(c, req, call.name, CallExecuted(cfg, c, req, call, answer).0)
  {
    FailedIsCallStep(cfg, c, req, call.name);
    var r := CallExecuted(cfg, c, req, call, answer).0;
    assert r.added == c.added + [r.added[|c.added|]];
  }

  lemma CallStepKeepsCtx(c: Ctx, req: ActionRequest, name: ToolName, r: Ctx)
    requires CtxOk(c, req) && CallStep(c, req, name, r)
    ensures CtxOk(r, req)
  {
    var log := c.s.transition.events + c.added;
    var log' := r.s.transition.events + r.added;
    assert log' == log + [r.added[|c.added|]];
  }

  lemma CallKeepsCtx(cfg: Cfg, c: Ctx, req: ActionRequest, call: ToolCall, answer: CallAnswer)
    requires CtxOk(c, req)
    ensures var r := CallExecuted(cfg, c, req, call, answer).0;
      CallStep(c, req, call.name, r) && CtxOk(r, req)
  {
    if IsUiAction(call.name) {
      UiIsCallStep(cfg, c, req, call, answer);
    } else {
      StateIsCallStep(cfg, c, req, call, answer);
    }
    CallStepKeepsCtx(c, req, call.name, CallExecuted(cfg, c, req, call, answer).0);
  }

  /** The last event of a working log. */
  function LastTool(c: Ctx): Option<ToolName> {
    if c.added == [] then None else c.added[|c.added| - 1].tool
  }

  lemma {:induction false} CallsKeepCtx(cfg: Cfg, c: Ctx, req: ActionRequest, env: ExecutionAnswers, i: nat)
    requires i <= |req.calls| && CtxOk(c, req)
    ensures var r := CallsExecuted(cfg, c, req, env, i);
      && CtxOk(r, req) && SameFrame(c.s, r.s)
      && (i < |req.calls| ==> exists k :: i <= k < |req.calls| && LastTool(r) == Some(req.calls[k].name))
      && (i == |req.calls| ==> r == c)
    decreases |req.calls| - i
  {
    if i < |req.calls| {
      CallKeepsCtx(cfg, c, req, req.calls[i], env.calls(i));
      var (next, goOn) := CallExecuted(cfg, c, req, req.calls[i], env.calls(i));
      assert LastTool(next) == Some(req.calls[i].name);
      if goOn { CallsKeepCtx(cfg, next, req, env, i + 1); }
    }
  }

  /** What an executed request must leave for every route out of the execution node to be safe. */
  ghost predicate ExecutedWell(cfg: Cfg, s: WorkerState, r: Ctx) {
    && LogOk(r.s.transition.(events := r.s.transition.events + r.added))
    && ReplayOk(r.s.replay, r.s.transition.request)
    && SameFrame(s, r.s)
    && WellKept(r.s.collection.queue)
    && QueueStep(s.collection.queue, r.s.collection.queue)
    && r.s.collection.captures == s.collection.captures
    && CompletionOk(cfg, r.s)
    && r.added != []
    && (r.s.collection.draft.Some? || LastTool(r) == Some(ReviewJobDetail) ==> Clear(r.s))
    && (s.obs.lowInfo ==> r.s.lifecycle.finished)
  }

  lemma ExecutedWellSuffices(cfg: Cfg, s: WorkerState, r: Ctx)
    requires Inv(cfg, Config(AtExecution, s)) && ExecutedWell(cfg, s, r)
    ensures var f := FinishedState(r); Inv(cfg, Config(RouteAfterExecution(f), f))
  {
    var f := FinishedState(r);
    assert f.transition.events[|f.transition.events| - 1] == r.added[|r.added| - 1];
  }

  lemma {:induction false} PlainCallsKeepCollection(cfg: Cfg, c: Ctx, req: ActionRequest, env: ExecutionAnswers, i: nat)
    requires i <= |req.calls|
    requires forall call | call in req.calls :: IsUiAction(call.name) && call.queueId == 0
    ensures var r := CallsExecuted(cfg, c, req, env, i);
      r.s.collection == c.s.collection && r.s.lifecycle == c.s.lifecycle
    decreases |req.calls| - i
  {
    if i < |req.calls| {
      assert req.calls[i] in req.calls;
      UiCollection(cfg, c, req, req.calls[i], env.calls(i));
      var (next, goOn) := CallExecuted(cfg, c, req, req.calls[i], env.calls(i));
      if goOn { PlainCallsKeepCollection(cfg, next, req, env, i + 1); }
    }
  }

  lemma QueueStoredKeeps(cfg: Cfg, c: Ctx, call: ToolCall, answer: CallAnswer)
    requires WellKept(c.s.collection.queue) && !Unresolved(c.s.collection.queue)
    requires CompletionOk(cfg, c.s) && !c.s.lifecycle.finished
    ensures var r := QueueStored(cfg, c, call, answer);
      && WellKept(r.s.collection.queue) && CompletionOk(cfg, r.s)
      && QueueStep(c.s.collection.queue, r.s.collection.queue)
  {
    var queue := c.s.collection.queue;
    var listed := Normalized(queue, call.cards, c.s.obs.markers);
    NormalizeResolvedQueue(queue, call.cards, c.s.obs.markers);
    MarkExistingKeeps(listed, answer.existing);
    forall i | 0 <= i < |queue| ensures CardStep(queue[i], MarkExisting(listed, answer.existing)[i]) {
      assert listed[i] == queue[i];
      assert CardStep(listed[i], MarkExisting(listed, answer.existing)[i]);
    }
  }

  lemma UiCollection(cfg: Cfg, c: Ctx, req: ActionRequest, call: ToolCall, answer: CallAnswer)
    requires IsUiAction(call.name)
    ensures var r := CallExecuted(cfg, c, req, call, answer).0;
      && r.s.lifecycle == c.s.lifecycle
      && (r.s.collection == c.s.collection ||
          (call.queueId != 0 &&
           r.s.collection == c.s.collection.(queue := Activated(c.s.collection.queue, call.queueId))))
  {}

  lemma StateCollection(cfg: Cfg, c: Ctx, req: ActionRequest, call: ToolCall, answer: CallAnswer)
    requires call.name == ReviewJobDetail || call.name == FinishTask
    ensures var r := CallExecuted(cfg, c, req, call, answer).0;
      && r.s.collection == c.s.collection.(draft := r.s.collection.draft)
      && (r.s.collection.draft != c.s.collection.draft ==> call.name == ReviewJobDetail)
      && r.s.lifecycle == (if call.name == FinishTask then Lifecycle(true, FinishReason(req.source)) else c.s.lifecycle)
  {}

  lemma QueueCallCollection(cfg: Cfg, c: Ctx, req: ActionRequest, call: ToolCall, answer: CallAnswer)
    requires call.name == SetJobCardQueue
    ensures var r := CallExecuted(cfg, c, req, call, answer).0;
      && ((r.s.collection == c.s.collection && r.s.lifecycle == c.s.lifecycle) ||
          (var q := QueueStored(cfg, c, call, answer);
           r.s.collection == q.s.collection && r.s.lifecycle == q.s.lifecycle))
  {}

  /** The collection and lifecycle after a request of a single call. */
  lemma SingleCallKeeps(cfg: Cfg, c: Ctx, req: ActionRequest, call: ToolCall, answer: CallAnswer)
    requires WellKept(c.s.collection.queue) && CompletionOk(cfg, c.s) && !c.s.lifecycle.finished
    requires CallOk(c.s, req, call) && c.s.collection.draft.None?
    ensures var r := CallExecuted(cfg, c, req, call, answer).0;
      && WellKept(r.s.collection.queue) && CompletionOk(cfg, r.s)
      && QueueStep(c.s.collection.queue, r.s.collection.queue)
      && r.s.collection.captures == c.s.collection.captures
      && (r.s.collection.draft.Some? ==> call.name == ReviewJobDetail)
      && (call.name == FinishTask ==> r.s.lifecycle.finished)
  {
    if IsUiAction(call.name) {
      UiCollection(cfg, c, req, call, answer);
      if call.queueId != 0 { ActivateOne(c.s.collection.queue, FirstPending(c.s.collection.queue)); }
    } else if call.name == SetJobCardQueue {
      QueueCallCollection(cfg, c, req, call, answer);
      QueueStoredKeeps(cfg, c, call, answer);
    } else {
      StateCollection(cfg, c, req, call, answer);
    }
  }

  lemma SkippedRequestIsWell(cfg: Cfg, s: WorkerState, req: ActionRequest, countsError: bool)
    requires Inv(cfg, Config(AtExecution, s)) && req == s.decision.pending.value
    requires !s.obs.lowInfo
    ensures var r := Recorded(Ctx(s, []), req.calls[0].name, SkippedResult, None, BeforeScreen(cfg, s));
      ExecutedWell(cfg, s, if countsError then OneMoreError(r) else r)
  {
    var c := Ctx(s, []);
    var name := req.calls[0].name;
    assert s.transition.events + [] == s.transition.events;
    assert CallOk(s, req, req.calls[0]);
    RecordedIsCallStep(c, req, c, name, SkippedResult, None, BeforeScreen(cfg, s), s.transition.errorCount + 1);
    var r := Recorded(c, name, SkippedResult, None, BeforeScreen(cfg, s));
    CallStepKeepsCtx(c, req, name, if countsError then OneMoreError(r) else r);
  }

  lemma SingleRequestRuns(cfg: Cfg, c: Ctx, req: ActionRequest, env: ExecutionAnswers)
    requires |req.calls| == 1
    ensures CallsExecuted(cfg, c, req, env, 0) == CallExecuted(cfg, c, req, req.calls[0], env.calls(0)).0
  {}

  lemma ReviewKeepsRequest(cfg: Cfg, c: Ctx, req: ActionRequest, call: ToolCall, answer: CallAnswer)
    requires call.name == ReviewJobDetail && req.source != Reflex
    ensures CallExecuted(cfg, c, req, call, answer).0.s.transition.request == c.s.transition.request
  {}

  lemma SingleRequestIsWell(cfg: Cfg, s: WorkerState, req: ActionRequest, env: ExecutionAnswers)
    requires Inv(cfg, Config(AtExecution, s)) && req == s.decision.pending.value && |req.calls| == 1
    ensures ExecutedWell(cfg, s, CallsExecuted(cfg, Ctx(s, []), req, env, 0))
  {
    var c := Ctx(s, []);
    var call, answer := req.calls[0], env.calls(0);
    assert s.transition.events + [] == s.transition.events;
    assert CallOk(s, req, call);
    SingleRequestRuns(cfg, c, req, env);
    CallKeepsCtx(cfg, c, req, call, answer);
    SingleCallKeeps(cfg, c, req, call, answer);
    if call.name == ReviewJobDetail { ReviewKeepsRequest(cfg, c, req, call, answer); }
    var r := CallExecuted(cfg, c, req, call, answer).0;
    WellFromStep(cfg, s, req, call, r);
  }

  lemma WellFromStep(cfg: Cfg, s: WorkerState, req: ActionRequest, call: ToolCall, r: Ctx)
    requires Inv(cfg, Config(AtExecution, s)) && req == s.decision.pending.value && req.calls == [call]
    requires CtxOk(r, req) && CallStep(Ctx(s, []), req, call.name, r)
    requires WellKept(r.s.collection.queue) && CompletionOk(cfg, r.s)
    requires QueueStep(s.collection.queue, r.s.collection.queue)
    requires r.s.collection.captures == s.collection.captures
    requires r.s.collection.draft.Some? ==> call.name == ReviewJobDetail
    requires call.name == ReviewJobDetail ==> r.s.transition.request == s.transition.request
    requires call.name == FinishTask ==> r.s.lifecycle.finished
    ensures ExecutedWell(cfg, s, r)
  {
    assert CallOk(s, req, call);
    assert LastTool(r) == Some(call.name);
  }

  lemma GroupIsWell(cfg: Cfg, s: WorkerState, req: ActionRequest, env: ExecutionAnswers)
    requires Inv(cfg, Config(AtExecution, s)) && req == s.decision.pending.value && |req.calls| == 2
    ensures ExecutedWell(cfg, s, CallsExecuted(cfg, Ctx(s, []), req, env, 0))
  {
    var c := Ctx(s, []);
    assert s.transition.events + [] == s.transition.events;
    forall call | call in req.calls ensures IsUiAction(call.name) && call.queueId == 0 {
      assert CallOk(s, req, call);
    }
    CallsKeepCtx(cfg, c, req, env, 0);
    PlainCallsKeepCollection(cfg, c, req, env, 0);
    assert forall k :: 0 <= k < |req.calls| ==> req.calls[k] in req.calls;
  }

  lemma ExecuteKeepsInv(cfg: Cfg, s: WorkerState, env: ExecutionAnswers)
    requires Inv(cfg, Config(AtExecution, s))
    ensures var r := Execute(cfg, s, env);
      Inv(cfg, Config(RouteAfterExecution(r), r)) && QueueStep(s.collection.queue, r.collection.queue)
      && r.collection.captures == s.collection.captures
  {
    var req := s.decision.pending.value;
    var c := Ctx(s, []);
    if s.obs.lowInfo { assert req.calls == [PlainCall(FinishTask)]; }
    if RepeatsSubmitted(s, req, env) {
      SkippedRequestIsWell(cfg, s, req, false);
    } else if RepeatsNoEffect(req, env) {
      SkippedRequestIsWell(cfg, s, req, true);
    } else if |req.calls| == 1 {
      SingleRequestIsWell(cfg, s, req, env);
    } else {
      GroupIsWell(cfg, s, req, env);
    }
    ExecutedWellSuffices(cfg, s, RequestExecuted(cfg, c, req, env));
  }

  // ----------------------------------------------------------------------- review

  lemma SettledKeeps(cfg: Cfg, s: WorkerState, queue: Queue, captures: seq<Capture>, review: Review)
    requires Inv(cfg, Config(AtReview, s)) && WellKept(queue) && DistinctCaptures(cfg, captures)
    ensures var r := Settled(cfg, s, queue, captures, review);
      Inv(cfg, Config(RouteAfterReview(r), r)) && r.collection.queue == queue && r.collection.captures == captures
  {}

  lemma CompleteKeepsInv(cfg: Cfg, s: WorkerState, review: Review)
    requires Inv(cfg, Config(AtReview, s)) && review.status == CompleteReview
    ensures ReviewKept(cfg, s, ReviewDraft(cfg, s, review))
  {
    var capture := Capture(s.collection.draft.value.url, s.collection.draft.value.cardKey);
    var queue := SettleActive(s.collection.queue, Complete);
    SettleOne(s.collection.queue, Complete);
    StoreCaptureKeepsDistinct(cfg, s.collection.captures, capture);
    SettledKeeps(cfg, s, queue, StoreCapture(cfg, s.collection.captures, capture), review);
    assert ReviewDraft(cfg, s, review) == Settled(cfg, s, queue, StoreCapture(cfg, s.collection.captures, capture), review);
  }

  lemma RejectKeepsInv(cfg: Cfg, s: WorkerState, review: Review)
    requires Inv(cfg, Config(AtReview, s)) && review.status in {SourceIncomplete, InvalidTarget}
    ensures ReviewKept(cfg, s, ReviewDraft(cfg, s, review))
  {
    var queue := SettleActive(s.collection.queue, Reject);
    SettleOne(s.collection.queue, Reject);
    SettledKeeps(cfg, s, queue, s.collection.captures, review);
    assert ReviewDraft(cfg, s, review) == Settled(cfg, s, queue, s.collection.captures, review);
  }

  ghost predicate ReviewKept(cfg: Cfg, s: WorkerState, r: WorkerState) {
    && Inv(cfg, Config(RouteAfterReview(r), r))
    && QueueStep(s.collection.queue, r.collection.queue)
    && Identities(cfg, s.collection.captures) <= Identities(cfg, r.collection.captures)
  }

  lemma ReviewKeepsInv(cfg: Cfg, s: WorkerState, review: Review)
    requires Inv(cfg, Config(AtReview, s))
    ensures ReviewKept(cfg, s, ReviewDraft(cfg, s, review))
  {
    match review.status
    case CompleteReview => CompleteKeepsInv(cfg, s, review);
    case NeedsMore =>
    case _ => RejectKeepsInv(cfg, s, review);
  }
}
