/**
 Screens, actions and the transitions between them, in every run of the worker
 graph: which capture an action is judged on, and what is recorded of it
 (agent/graph/worker_observation.py, agent/graph/worker_transition_recording.py).
 */
module WorkerCaptures {
  import opened Prelude
  import opened ExecutionRecord
  import opened WorkerContracts
  import opened JobCardQueue
  import opened ReplayRuntime
  import opened WorkerTransition
  import opened WorkerSelection
  import opened WorkerReasoning
  import opened WorkerCycle
  import opened WorkerExecution
  import opened WorkerGraph
  import opened WorkerRuns

  /** Observation nodes passed in a run. */
  function CapturesTaken(run: seq<Config>): nat {
    if run == [] then 0
    else CapturesTaken(run[..|run| - 1]) + if run[|run| - 1].node == AtObservation then 1 else 0
  }

  // ------------------------------------------------------ one decision, one capture

  /** Still the same capture, with no request but the one that was open. */
  predicate SameCapture(s: WorkerState, r: WorkerState) {
    && r.obs.sequence == s.obs.sequence && r.obs.screenshot == s.obs.screenshot
    && (r.transition.request.None? || r.transition.request == s.transition.request)
  }

  lemma TryReflexSeesOneCapture(cfg: Cfg, s: WorkerState, rules: seq<RuleCandidate>)
    ensures SameCapture(s, TryReflex(cfg, s, rules))
  {}

  lemma RunOcrSeesOneCapture(cfg: Cfg, s: WorkerState, result: OcrResult)
    requires RunOcr(cfg, s, result).Some?
    ensures SameCapture(s, RunOcr(cfg, s, result).value)
  {}

  lemma SelectSeesOneCapture(cfg: Cfg, s: WorkerState, found: Lookup)
    ensures SameCapture(s, Select(cfg, s, found))
  {}

  lemma PrepareSeesOneCapture(cfg: Cfg, s: WorkerState, a: Answers)
    requires Prepare(cfg, s, a).Some?
    ensures SameCapture(s, Prepare(cfg, s, a).value)
  {
    if !ObservationReady(s) {
      TryReflexSeesOneCapture(cfg, s, a.rulesBeforeOcr);
      var tried :=
        if s.transition.result.status in {NeedsOcr, Unknown} then s else TryReflex(cfg, s, a.rulesBeforeOcr);
      if s.transition.result.status in {NeedsOcr, Unknown} || !HasReflexAction(tried) {
        RunOcrSeesOneCapture(cfg, tried, a.ocr);
        SelectSeesOneCapture(cfg, RunOcr(cfg, tried, a.ocr).value, a.second);
      }
    }
  }

  lemma DeliberateSeesOneCapture(cfg: Cfg, s: WorkerState, a: Answers)
    ensures SameCapture(s, Deliberate(cfg, s, a))
  {
    TryReflexSeesOneCapture(cfg, s, a.rulesAfterOcr);
  }

  lemma DecideSeesOneCapture(cfg: Cfg, s: WorkerState, a: Answers)
    requires Decide(cfg, s, a).Some?
    ensures SameCapture(s, Decide(cfg, s, a).value)
  {
    if !s.lifecycle.finished && s.decision.pending.None? && !ReviewFollowUpDue(s) {
      SelectSeesOneCapture(cfg, s, a.first);
      var selected := Select(cfg, s, a.first);
      if !Resolved(selected) {
        PrepareSeesOneCapture(cfg, selected, a);
        DeliberateSeesOneCapture(cfg, Prepare(cfg, selected, a).value, a);
      }
    }
  }

  // ----------------------------------------------------------- requests and screens

  /** The open request was made on an earlier capture than the one that is to judge it. */
  predicate JudgedLater(c: Config) {
    c.s.transition.request.Some? ==>
      && c.s.transition.request.value.beforeSequence <= c.s.obs.sequence
      && (c.node in {AtDecision, AtExecution} ==> c.s.transition.request.value.beforeSequence < c.s.obs.sequence)
  }

  /** The request is the given one, or was made on the current screen. */
  predicate MadeOn(s: WorkerState, was: Option<TransitionRequest>, request: Option<TransitionRequest>) {
    || request == was
    || (request.Some? && request.value.beforeSequence == s.obs.sequence &&
        request.value.beforeScreenshot == s.obs.screenshot)
  }

  lemma {:induction false} CallsAreMadeOnScreen(
      cfg: Cfg, c: Ctx, req: ActionRequest, env: ExecutionAnswers, i: nat, was: Option<TransitionRequest>)
    requires i <= |req.calls| && CtxOk(c, req)
    requires was.Some? ==> was.value.beforeSequence < c.s.obs.sequence
    requires MadeOn(c.s, was, c.s.transition.request)
    ensures MadeOn(c.s, was, CallsExecuted(cfg, c, req, env, i).s.transition.request)
    decreases |req.calls| - i
  {
    if i < |req.calls| {
      CallKeepsCtx(cfg, c, req, req.calls[i], env.calls(i));
      var (next, goOn) := CallExecuted(cfg, c, req, req.calls[i], env.calls(i));
      if goOn { CallsAreMadeOnScreen(cfg, next, req, env, i + 1, was); }
    }
  }

  lemma ExecutionIsMadeOnScreen(cfg: Cfg, s: WorkerState, env: ExecutionAnswers)
    requires Inv(cfg, Config(AtExecution, s)) && JudgedLater(Config(AtExecution, s))
    ensures var r := Execute(cfg, s, env);
      && MadeOn(s, s.transition.request, r.transition.request)
      && r.obs.sequence == s.obs.sequence && r.obs.screenshot == s.obs.screenshot
  {
    var c := Ctx(s, []);
    assert s.transition.events + [] == s.transition.events;
    CallsAreMadeOnScreen(cfg, c, s.decision.pending.value, env, 0, s.transition.request);
    CallsKeepCtx(cfg, c, s.decision.pending.value, env, 0);
  }

  /** What one graph step does to the observation and the open request. */
  ghost predicate CaptureStep(c: Config, next: Config) {
    && next.s.obs.sequence == c.s.obs.sequence + (if c.node == AtObservation then 1 else 0)
    && JudgedLater(next)
    && (c.node == AtExecution || next.s.transition.request.None? ||
        next.s.transition.request == c.s.transition.request)
    && (c.node == AtExecution ==> MadeOn(c.s, c.s.transition.request, next.s.transition.request))
  }

  lemma DecisionIsCaptureStep(cfg: Cfg, s: WorkerState, w: World)
    requires Inv(cfg, Config(AtDecision, s)) && JudgedLater(Config(AtDecision, s))
    ensures CaptureStep(Config(AtDecision, s), Next(cfg, Config(AtDecision, s), w))
  {
    DecideKeepsInv(cfg, s, w.answers);
    DecideSeesOneCapture(cfg, s, w.answers);
  }

  lemma ExecutionIsCaptureStep(cfg: Cfg, s: WorkerState, w: World)
    requires Inv(cfg, Config(AtExecution, s)) && JudgedLater(Config(AtExecution, s))
    ensures CaptureStep(Config(AtExecution, s), Next(cfg, Config(AtExecution, s), w))
  {
    ExecuteKeepsInv(cfg, s, w.execution);
    ExecutionIsMadeOnScreen(cfg, s, w.execution);
  }

  lemma ReviewIsCaptureStep(cfg: Cfg, s: WorkerState, w: World)
    requires Inv(cfg, Config(AtReview, s))
    ensures CaptureStep(Config(AtReview, s), Next(cfg, Config(AtReview, s), w))
  {}

  lemma NextIsCaptureStep(cfg: Cfg, c: Config, w: World)
    requires Inv(cfg, c) && JudgedLater(c)
    ensures CaptureStep(c, Next(cfg, c, w))
  {
    assert c == Config(c.node, c.s);
    match c.node
    case AtObservation =>
    case AtDecision => DecisionIsCaptureStep(cfg, c.s, w);
    case AtExecution => ExecutionIsCaptureStep(cfg, c.s, w);
    case AtReview => ReviewIsCaptureStep(cfg, c.s, w);
    case _ =>
  }

  lemma {:induction false} RunIsCaptured(cfg: Cfg, run: seq<Config>, worlds: seq<World>, i: nat)
    requires IsRun(cfg, run, worlds) && i < |run|
    ensures JudgedLater(run[i])
    ensures i + 1 < |run| ==> CaptureStep(run[i], run[i + 1])
  {
    if i == 0 {
      var url, status :| run[0] == Start(url, status);
    } else {
      RunIsCaptured(cfg, run, worlds, i - 1);
      assert CaptureStep(run[i - 1], run[i - 1 + 1]);
    }
    RunKeepsInv(cfg, run, worlds, i);
    if i + 1 < |run| { NextIsCaptureStep(cfg, run[i], worlds[i]); }
  }

  /** Observation ids count the captures of the run. */
  lemma {:induction false} ObservationIdsCountCaptures(cfg: Cfg, run: seq<Config>, worlds: seq<World>, i: nat)
    requires IsRun(cfg, run, worlds) && i < |run|
    ensures run[i].s.obs.sequence == CapturesTaken(run[..i])
  {
    if i == 0 {
      var url, status :| run[0] == Start(url, status);
    } else {
      ObservationIdsCountCaptures(cfg, run, worlds, i - 1);
      RunIsCaptured(cfg, run, worlds, i - 1);
      assert CaptureStep(run[i - 1], run[i - 1 + 1]);
      assert run[..i][..i - 1] == run[..i - 1];
    }
  }

  lemma {:induction false} RequestOrigin(states: seq<Config>, i: nat) returns (j: nat)
    requires i < |states| && states[0].s.transition.request.None?
    requires forall k :: 0 <= k < |states| - 1 ==> CaptureStep(states[k], states[k + 1])
    requires states[i].s.transition.request.Some?
    ensures j < i && states[j].node == AtExecution
    ensures states[i].s.transition.request.value.beforeSequence == states[j].s.obs.sequence
    ensures states[i].s.transition.request.value.beforeScreenshot == states[j].s.obs.screenshot
  {
    assert i > 0 && CaptureStep(states[i - 1], states[i - 1 + 1]);
    if states[i].s.transition.request == states[i - 1].s.transition.request {
      j := RequestOrigin(states, i - 1);
    } else {
      j := i - 1;
    }
  }

  /**
   Every open request remembers the screen of the execution that made it, and
   the capture on which a decision judges it is a later one.
   */
  lemma ActionsAreJudgedOnLaterCaptures(cfg: Cfg, run: seq<Config>, worlds: seq<World>, i: nat)
    returns (j: nat)
    requires IsRun(cfg, run, worlds) && i < |run| && run[i].s.transition.request.Some?
    ensures j < i && run[j].node == AtExecution
    ensures run[i].s.transition.request.value.beforeSequence == run[j].s.obs.sequence
    ensures run[i].s.transition.request.value.beforeScreenshot == run[j].s.obs.screenshot
    ensures run[i].node == AtDecision ==> run[j].s.obs.sequence < run[i].s.obs.sequence
  {
    forall k | 0 <= k < |run| - 1 ensures CaptureStep(run[k], run[k + 1]) { RunIsCaptured(cfg, run, worlds, k); }
    RunStartsUnrequested(cfg, run, worlds);
    RunIsCaptured(cfg, run, worlds, i);
    j := RequestOrigin(run, i);
  }

  lemma RunStartsUnrequested(cfg: Cfg, run: seq<Config>, worlds: seq<World>)
    requires IsRun(cfg, run, worlds)
    ensures run[0].s.transition.request.None?
  {
    var url, status :| run[0] == Start(url, status);
  }

  // ------------------------------------------------------------ recorded transitions

  lemma {:induction false} SelectsNothing(log: Log, seqs: seq<nat>)
    requires forall e | e in log :: e.seqNo !in seqs
    ensures SelectedEvents(log, seqs) == []
  {
    if log != [] {
      var front := log[..|log| - 1];
      assert log == front + [log[|log| - 1]];
      SelectsNothing(front, seqs);
    }
  }

  lemma SelectsLastTwo(log: Log, n: nat)
    requires Gapless(log) && |log| == n + 2
    ensures SelectedEvents(log, [n, n + 1]) == [log[n], log[n + 1]]
  {
    SelectsNothing(log[..n], [n, n + 1]);
    assert log[..n + 1][..n] == log[..n];
    assert SelectedEvents(log[..n + 1], [n, n + 1]) == [log[n]];
  }

  /** The last two events of a log, both successful and recorded, become one transition. */
  lemma AttachesPair(log: Log, n: nat, after: Screen, ready: bool)
    requires Gapless(log) && |log| == n + 2
    requires forall i :: n <= i < n + 2 ==> log[i].status == Success && log[i].candidate.Some?
    ensures AttachTransition(log, [n, n + 1], n + 1, after, ready) ==
      log[n + 1 := log[n + 1].(transition := Some(ObservedTransition(
        n, log[n].before, [log[n].candidate.value, log[n + 1].candidate.value], after, Some(Evidence(Success, ready)))))]
  {
    SelectsLastTwo(log, n);
    var pair := [log[n], log[n + 1]];
    assert pair[..1] == [log[n]] && pair[..1][..0] == [];
    assert RecordedActions(pair[..1]) == [log[n].candidate.value];
    assert RecordedActions(pair) == [log[n].candidate.value, log[n + 1].candidate.value];
  }

  /** The guards let the call pass, and it succeeds on a recorded target. */
  predicate Succeeds(answer: CallAnswer) {
    !answer.policyBlocked && answer.status == Success && answer.candidate.Some?
  }

  function SuccessEvent(cfg: Cfg, c: Ctx, call: ToolCall, answer: CallAnswer): Event
    requires answer.candidate.Some?
  {
    Event(NextSeq(c), Some(call.name), Success, Some(ObservedAction(NextSeq(c), answer.candidate.value)),
          BeforeScreen(cfg, c.s), None)
  }

  /** What a successful call of a group adds and asks to judge. */
  predicate SuccessStep(cfg: Cfg, c: Ctx, req: ActionRequest, call: ToolCall, answer: CallAnswer, r: Ctx)
    requires answer.candidate.Some?
  {
    var prior := c.s.transition.request;
    var source := TransitionSource(req.source);
    var joins := prior.Some? && prior.value.beforeSequence == c.s.obs.sequence && prior.value.source == source;
    && r.added == c.added + [SuccessEvent(cfg, c, call, answer)]
    && r.s.transition.events == c.s.transition.events
    && r.s.obs == c.s.obs.(urlStale := r.s.obs.urlStale)
    && r.s.transition.request.Some?
    && var request := r.s.transition.request.value;
    && request.beforeSequence == c.s.obs.sequence && request.source == source && request.actionSeq == NextSeq(c)
    && (!joins ==> request.actionSeqs == [NextSeq(c)] && request.beforeUrl == c.s.obs.url)
    && (joins && NextSeq(c) !in prior.value.actionSeqs ==>
          request.actionSeqs == prior.value.actionSeqs + [NextSeq(c)])
    && (joins && prior.value.beforeUrl == c.s.obs.url ==> request.beforeUrl == c.s.obs.url)
  }

  lemma SuccessfulCall(cfg: Cfg, c: Ctx, req: ActionRequest, call: ToolCall, answer: CallAnswer)
    requires call.name in {TypeInMarker, ClickMarker, PressKey} && call.queueId == 0 && Succeeds(answer)
    ensures var (r, goOn) := CallExecuted(cfg, c, req, call, answer);
      goOn && SuccessStep(cfg, c, req, call, answer, r)
  {}

  /** Neither guard stops the request, and both of its calls succeed on a recorded target. */
  predicate BothSucceed(s: WorkerState, req: ActionRequest, env: ExecutionAnswers) {
    && !RepeatsSubmitted(s, req, env) && !RepeatsNoEffect(req, env)
    && Succeeds(env.calls(0)) && Succeeds(env.calls(1))
  }

  function InputEvents(cfg: Cfg, s: WorkerState, req: ActionRequest, env: ExecutionAnswers): Log
    requires |req.calls| == 2 && BothSucceed(s, req, env)
  {
    var n, before := |s.transition.events|, BeforeScreen(cfg, s);
    [Event(n, Some(req.calls[0].name), Success, Some(ObservedAction(n, env.calls(0).candidate.value)), before, None),
     Event(n + 1, Some(req.calls[1].name), Success, Some(ObservedAction(n + 1, env.calls(1).candidate.value)), before, None)]
  }

  /** The two calls' events follow the log, under one request from the current screen. */
  predicate IsInputGroup(cfg: Cfg, s: WorkerState, req: ActionRequest, env: ExecutionAnswers, t: Transition)
    requires |req.calls| == 2 && BothSucceed(s, req, env)
  {
    var n := |s.transition.events|;
    && t.events == s.transition.events + InputEvents(cfg, s, req, env)
    && t.request.Some? && t.request.value.actionSeq == n + 1 && t.request.value.actionSeqs == [n, n + 1]
    && t.request.value.beforeUrl == s.obs.url
  }

  lemma TwoSuccesses(cfg: Cfg, s: WorkerState, req: ActionRequest, env: ExecutionAnswers, c1: Ctx, c2: Ctx)
    requires |req.calls| == 2 && BothSucceed(s, req, env) && JudgedLater(Config(AtExecution, s))
    requires SuccessStep(cfg, Ctx(s, []), req, req.calls[0], env.calls(0), c1)
    requires SuccessStep(cfg, c1, req, req.calls[1], env.calls(1), c2)
    ensures IsInputGroup(cfg, s, req, env, FinishedState(c2).transition)
  {
    assert c2.added == InputEvents(cfg, s, req, env);
  }

  lemma InputIsOneGroup(cfg: Cfg, s: WorkerState, req: ActionRequest, env: ExecutionAnswers)
    requires s.decision.pending == Some(req) && |req.calls| == 2 && PendingOk(s, req)
    requires JudgedLater(Config(AtExecution, s)) && BothSucceed(s, req, env)
    ensures IsInputGroup(cfg, s, req, env, Execute(cfg, s, env).transition)
  {
    var c := Ctx(s, []);
    assert CallOk(s, req, req.calls[0]) && CallOk(s, req, req.calls[1]);
    SuccessfulCall(cfg, c, req, req.calls[0], env.calls(0));
    var c1 := CallExecuted(cfg, c, req, req.calls[0], env.calls(0)).0;
    SuccessfulCall(cfg, c1, req, req.calls[1], env.calls(1));
    var c2 := CallExecuted(cfg, c1, req, req.calls[1], env.calls(1)).0;
    CallsStep(cfg, c, req, env, 0, c1, true);
    CallsStep(cfg, c1, req, env, 1, c2, true);
    TwoSuccesses(cfg, s, req, env, c1, c2);
  }

  /** The log once the transition of the two calls is attached. */
  lemma GroupBecomesTransition(
      cfg: Cfg, s: WorkerState, req: ActionRequest, env: ExecutionAnswers, t: Transition, after: Screen, ready: bool)
    requires |req.calls| == 2 && BothSucceed(s, req, env) && IsInputGroup(cfg, s, req, env, t)
    requires Gapless(s.transition.events)
    ensures AttachTransition(t.events, t.request.value.actionSeqs, t.request.value.actionSeq, after, ready) ==
      InputRecorded(cfg, s, req, env, after, ready)
  {
    var n := |s.transition.events|;
    AttachesPair(t.events, n, after, ready);
    var pair := InputEvents(cfg, s, req, env);
    assert t.events[n] == pair[0] && t.events[n + 1] == pair[1];
  }

  /** The log with both calls recorded and one transition of two actions at the second. */
  function InputRecorded(
      cfg: Cfg, s: WorkerState, req: ActionRequest, env: ExecutionAnswers, after: Screen, ready: bool): Log
    requires |req.calls| == 2 && BothSucceed(s, req, env)
  {
    var pair := InputEvents(cfg, s, req, env);
    s.transition.events + [pair[0], pair[1].(transition := Some(ObservedTransition(
      |s.transition.events|, BeforeScreen(cfg, s),
      [pair[0].candidate.value, pair[1].candidate.value], after, Some(Evidence(Success, ready)))))]
  }

  // ------------------------------------------------------------- judged or set aside

  /** Selection leaves an unread screen alone: a rule is under way, or neither the duplicate check nor the way back acts. */
  predicate Undisturbed(cfg: Cfg, s: WorkerState, found: Lookup) {
    || s.replay.session.Some?
    || (!(HasActive(s.collection.queue) && cfg.isDetailUrl(s.obs.url) && found.duplicate.Some?) &&
        ResultsNavigationStep(cfg, s).None?)
  }

  /** The log once OCR has read the screen and the open request was judged on it. */
  function JudgedLog(cfg: Cfg, s: WorkerState, result: OcrResult): Log
    requires s.transition.request.Some? && Ocr(s, result).Some?
  {
    var read, request := Ocr(s, result).value, s.transition.request.value;
    var v := DecideAfterOcr(cfg, read.obs, request, result.see, s.transition.result.visualChanged);
    AttachTransition(s.transition.events, request.actionSeqs, request.actionSeq, BeforeScreen(cfg, read), v.status == Ready)
  }

  lemma RunOcrJudges(cfg: Cfg, s: WorkerState, result: OcrResult)
    requires RunOcr(cfg, s, result).Some?
    requires s.transition.request.Some? ==> s.transition.result.status == NeedsOcr
    ensures Ocr(s, result).Some?
    ensures var r := RunOcr(cfg, s, result).value;
      && r.transition.request.None?
      && r.transition.events ==
           if s.transition.request.Some? then JudgedLog(cfg, s, result) else s.transition.events
  {}

  lemma DeliberateLeavesLog(cfg: Cfg, s: WorkerState, a: Answers)
    ensures Deliberate(cfg, s, a).transition.events == s.transition.events
    ensures Deliberate(cfg, s, a).transition.request == s.transition.request
  {}

  lemma SelectLeavesLog(cfg: Cfg, s: WorkerState, found: Lookup)
    ensures var r := Select(cfg, s, found);
      && r.transition.events == s.transition.events
      && (s.transition.request.None? ==> r.transition.request.None?)
  {}

  /** Reading a screen from selection on, with the open request if it is still there. */
  lemma PrepareJudges(cfg: Cfg, s: WorkerState, a: Answers)
    requires Deciding(cfg, s) && !s.obs.lowInfo && Prepare(cfg, s, a).Some? && Ocr(s, a.ocr).Some?
    ensures var r := Prepare(cfg, s, a).value.transition;
      && r.request.None?
      && r.events == if s.transition.request.Some? then JudgedLog(cfg, s, a.ocr) else s.transition.events
  {
    if !ObservationReady(s) {
      var tried :=
        if s.transition.result.status in {NeedsOcr, Unknown} then s else TryReflex(cfg, s, a.rulesBeforeOcr);
      if s.transition.result.status in {NeedsOcr, Unknown} || !HasReflexAction(tried) {
        RunOcrJudges(cfg, tried, a.ocr);
        SelectLeavesLog(cfg, RunOcr(cfg, tried, a.ocr).value, a.second);
      }
    }
  }

  lemma SelectionDisturbsIff(cfg: Cfg, s: WorkerState, found: Lookup)
    requires Deciding(cfg, s) && !s.obs.lowInfo && s.transition.request.Some?
    ensures var r := Select(cfg, s, found);
      if Undisturbed(cfg, s, found) then r == s && !Resolved(r)
      else Resolved(r) || (r.transition.request.None? && r.obs == s.obs)
  {}

  /**
   A decision on a readable screen judges the open request, and attaches its
   transition to the log, exactly when selection leaves the screen alone;
   otherwise the request is dropped or left to be replaced, and the log stays.
   */
  lemma OpenRequestIsJudgedIff(cfg: Cfg, s: WorkerState, a: Answers)
    requires Inv(cfg, Config(AtDecision, s)) && !s.obs.lowInfo && s.transition.request.Some?
    ensures Ocr(s, a.ocr).Some? && Decide(cfg, s, a).Some?
    ensures var r := Decide(cfg, s, a).value.transition;
      if Undisturbed(cfg, s, a.first) then r.request.None? && r.events == JudgedLog(cfg, s, a.ocr)
      else r.events == s.transition.events
  {
    DecideKeepsInv(cfg, s, a);
    SelectKeeps(cfg, s, a.first);
    SelectLeavesLog(cfg, s, a.first);
    SelectionDisturbsIff(cfg, s, a.first);
    var selected := Select(cfg, s, a.first);
    if !Resolved(selected) {
      PrepareJudges(cfg, selected, a);
      DeliberateLeavesLog(cfg, Prepare(cfg, selected, a).value, a);
    }
  }

  /** The loss: on the detail page of a stored posting the click's request is dropped, and the log stays. */
  lemma StoredDetailDropsRequest(cfg: Cfg, s: WorkerState, a: Answers)
    requires Inv(cfg, Config(AtDecision, s)) && !s.obs.lowInfo && s.replay.session.None?
    requires HasActive(s.collection.queue) && cfg.isDetailUrl(s.obs.url) && a.first.duplicate.Some?
    ensures Decide(cfg, s, a).Some?
    ensures s.transition.request.Some? ==>
      var r := Decide(cfg, s, a).value.transition; r.request.None? && r.events == s.transition.events
  {
    DecideKeepsInv(cfg, s, a);
    if s.transition.request.Some? {
      OpenRequestIsJudgedIff(cfg, s, a);
      SkipKeeps(cfg, s, a.first.duplicate.value);
      var selected := Select(cfg, s, a.first);
      if !Resolved(selected) {
        SelectKeeps(cfg, s, a.first);
        PrepareJudges(cfg, selected, a);
        DeliberateLeavesLog(cfg, Prepare(cfg, selected, a).value, a);
      }
    }
  }

  // ---------------------------------------------------- from execution to judgement

  /** Whether and how the step from `c` to `next` judges the request that was open. */
  ghost predicate Judges(cfg: Cfg, c: Config, w: World, next: Config, after: Screen, ready: bool)
    requires c.s.transition.request.Some?
  {
    match c.node
    case AtObservation => after == BeforeScreen(cfg, next.s) && !ready
    case AtDecision =>
      && Undisturbed(cfg, c.s, w.answers.first) && Ocr(c.s, w.answers.ocr).Some?
      && var read := Ocr(c.s, w.answers.ocr).value;
         after == BeforeScreen(cfg, read) &&
         (ready <==> DecideAfterOcr(cfg, read.obs, c.s.transition.request.value, w.answers.ocr.see,
                                    c.s.transition.result.visualChanged).status == Ready)
    case _ => false
  }

  function Attached(log: Log, request: TransitionRequest, after: Screen, ready: bool): Log {
    AttachTransition(log, request.actionSeqs, request.actionSeq, after, ready)
  }

  lemma LowDecisionKeepsRequest(cfg: Cfg, s: WorkerState, a: Answers)
    requires Inv(cfg, Config(AtDecision, s)) && s.obs.lowInfo
    ensures Decide(cfg, s, a).Some? && Decide(cfg, s, a).value.transition == s.transition
  {
    SelectOnLowScreen(cfg, s, a.first);
  }

  lemma DecisionConsumes(cfg: Cfg, s: WorkerState, w: World)
    requires Inv(cfg, Config(AtDecision, s)) && s.transition.request.Some?
    ensures var c, next := Config(AtDecision, s), Next(cfg, Config(AtDecision, s), w);
      next.s.transition.events == s.transition.events ||
      (next.s.transition.request.None? && !s.obs.lowInfo && Undisturbed(cfg, s, w.answers.first))
    ensures var c, next := Config(AtDecision, s), Next(cfg, Config(AtDecision, s), w);
      next.s.transition.request.None? ==>
        && !s.obs.lowInfo
        && (Undisturbed(cfg, s, w.answers.first) ==>
              exists after, ready :: Judges(cfg, c, w, next, after, ready) &&
                next.s.transition.events == Attached(s.transition.events, s.transition.request.value, after, ready))
  {
    if s.obs.lowInfo {
      LowDecisionKeepsRequest(cfg, s, w.answers);
    } else {
      OpenRequestIsJudgedIff(cfg, s, w.answers);
      if Undisturbed(cfg, s, w.answers.first) {
        var c, next := Config(AtDecision, s), Next(cfg, Config(AtDecision, s), w);
        var read := Ocr(s, w.answers.ocr).value;
        var ready := DecideAfterOcr(cfg, read.obs, s.transition.request.value, w.answers.ocr.see,
                                    s.transition.result.visualChanged).status == Ready;
        assert Judges(cfg, c, w, next, BeforeScreen(cfg, read), ready);
        assert next.s.transition.events ==
          Attached(s.transition.events, s.transition.request.value, BeforeScreen(cfg, read), ready);
      }
    }
  }

  lemma InspectConsumes(cfg: Cfg, s: WorkerState, see: Screening)
    requires s.transition.request.Some?
    ensures var r := Inspect(cfg, s, see);
      r.transition.events ==
        if r.transition.request.Some? then s.transition.events
        else Attached(s.transition.events, s.transition.request.value, BeforeScreen(cfg, r), false)
  {
    var v := DecideBeforeOcr(cfg, s.obs, s.transition.request.value, see);
    assert v.status != NeedsOcr ==> v.status == Unknown;
  }

  lemma ObservationConsumes(cfg: Cfg, s: WorkerState, w: World)
    requires s.transition.request.Some?
    ensures var next := Next(cfg, Config(AtObservation, s), w);
      next.s.transition.events ==
        if next.s.transition.request.Some? then s.transition.events
        else Attached(s.transition.events, s.transition.request.value, BeforeScreen(cfg, next.s), false)
  {
    var captured := CaptureScreen(s, w.sight);
    assert captured.transition == s.transition;
    InspectConsumes(cfg, captured, w.sight.see);
  }

  /** An open request without execution in between: the log stays, or the request is judged, or it is set aside. */
  ghost predicate OpenStep(cfg: Cfg, c: Config, w: World, next: Config) {
    c.node != AtExecution && c.s.transition.request.Some? ==>
      if next.s.transition.request.Some? then next.s.transition.events == c.s.transition.events
      else if c.node == AtDecision && !Undisturbed(cfg, c.s, w.answers.first) then
        next.s.transition.events == c.s.transition.events
      else
        exists after, ready :: Judges(cfg, c, w, next, after, ready) &&
          next.s.transition.events == Attached(c.s.transition.events, c.s.transition.request.value, after, ready)
  }

  lemma NextIsOpenStep(cfg: Cfg, c: Config, w: World)
    requires Inv(cfg, c)
    ensures OpenStep(cfg, c, w, Next(cfg, c, w))
  {
    assert c == Config(c.node, c.s);
    if c.s.transition.request.Some? {
      match c.node
      case AtObservation =>
        ObservationConsumes(cfg, c.s, w);
        var next := Next(cfg, c, w);
        if next.s.transition.request.None? {
          assert Judges(cfg, c, w, next, BeforeScreen(cfg, next.s), false);
        }
      case AtDecision => DecisionConsumes(cfg, c.s, w);
      case _ =>
    }
  }

  /** No execution takes place from state `from` to state `to`. */
  ghost predicate NoExecution(states: seq<Config>, from: nat, to: nat)
    requires from <= to < |states|
  {
    forall k :: from <= k <= to ==> states[k].node != AtExecution
  }

  lemma {:induction false} OpenRequestIsCarried(cfg: Cfg, states: seq<Config>, worlds: seq<World>, i: nat, j: nat)
    requires |states| == |worlds| + 1 && i <= j < |states| && NoExecution(states, i, j)
    requires forall k :: 0 <= k < |worlds| ==> CaptureStep(states[k], states[k + 1])
    requires forall k :: 0 <= k < |worlds| ==> OpenStep(cfg, states[k], worlds[k], states[k + 1])
    requires states[j].s.transition.request.Some?
    ensures states[i].s.transition.request == states[j].s.transition.request
    ensures states[i].s.transition.events == states[j].s.transition.events
  {
    if i < j {
      assert CaptureStep(states[j - 1], states[j - 1 + 1]);
      assert OpenStep(cfg, states[j - 1], worlds[j - 1], states[j - 1 + 1]);
      OpenRequestIsCarried(cfg, states, worlds, i, j - 1);
    }
  }

  /** Executed at i and still open at j, the input's two events end the log. */
  lemma InputIsCarried(cfg: Cfg, run: seq<Config>, worlds: seq<World>, i: nat, j: nat)
    requires IsRun(cfg, run, worlds) && i < j < |worlds| && run[i].node == AtExecution
    requires run[i].s.decision.pending.Some? && |run[i].s.decision.pending.value.calls| == 2
    requires BothSucceed(run[i].s, run[i].s.decision.pending.value, worlds[i].execution)
    requires NoExecution(run, i + 1, j) && run[j].s.transition.request.Some?
    ensures IsInputGroup(cfg, run[i].s, run[i].s.decision.pending.value, worlds[i].execution, run[j].s.transition)
    ensures OpenStep(cfg, run[j], worlds[j], run[j + 1]) && Gapless(run[i].s.transition.events)
  {
    forall k | 0 <= k < |worlds|
      ensures CaptureStep(run[k], run[k + 1]) && OpenStep(cfg, run[k], worlds[k], run[k + 1])
    {
      RunIsCaptured(cfg, run, worlds, k);
      RunKeepsInv(cfg, run, worlds, k);
      NextIsOpenStep(cfg, run[k], worlds[k]);
    }
    OpenRequestIsCarried(cfg, run, worlds, i + 1, j);
    RunKeepsInv(cfg, run, worlds, i);
    RunIsCaptured(cfg, run, worlds, i);
    assert run[i] == Config(AtExecution, run[i].s);
    InputIsOneGroup(cfg, run[i].s, run[i].s.decision.pending.value, worlds[i].execution);
  }

  /**
   In every run a typed and submitted text becomes one transition of two
   recorded actions.  Let j be the step that closes the request opened at i.
   The log is then that of step i with both calls and one transition, numbered
   by the typing call, seen from the screen before it and attached to the
   submission; only a decision that selection disturbs sets the request aside,
   with both calls in the log and no transition.
   */
  lemma InputIsOneTransition(cfg: Cfg, run: seq<Config>, worlds: seq<World>, i: nat, j: nat)
    returns (after: Screen, ready: bool)
    requires IsRun(cfg, run, worlds) && i < j < |worlds| && run[i].node == AtExecution
    requires run[i].s.decision.pending.Some? && |run[i].s.decision.pending.value.calls| == 2
    requires BothSucceed(run[i].s, run[i].s.decision.pending.value, worlds[i].execution)
    requires NoExecution(run, i + 1, j)
    requires run[j].s.transition.request.Some? && run[j + 1].s.transition.request.None?
    ensures var setAside := run[j].node == AtDecision && !Undisturbed(cfg, run[j].s, worlds[j].answers.first);
      var s, req, env := run[i].s, run[i].s.decision.pending.value, worlds[i].execution;
      var log := run[j + 1].s.transition.events;
      if setAside then log == s.transition.events + InputEvents(cfg, s, req, env)
      else Judges(cfg, run[j], worlds[j], run[j + 1], after, ready) &&
           log == InputRecorded(cfg, s, req, env, after, ready)
  {
    InputIsCarried(cfg, run, worlds, i, j);
    var log, request := run[j].s.transition.events, run[j].s.transition.request.value;
    after, ready := Screen("", NoRole), false;
    if run[j].node == AtDecision && !Undisturbed(cfg, run[j].s, worlds[j].answers.first) { return; }
    after, ready :| Judges(cfg, run[j], worlds[j], run[j + 1], after, ready) &&
      run[j + 1].s.transition.events == Attached(log, request, after, ready);
    GroupBecomesTransition(
      cfg, run[i].s, run[i].s.decision.pending.value, worlds[i].execution, run[j].s.transition, after, ready);
  }

  /** Right after the execution the request is open, so that such a step j is the only way to close it. */
  lemma ExecutedInputIsOpen(cfg: Cfg, run: seq<Config>, worlds: seq<World>, i: nat)
    requires IsRun(cfg, run, worlds) && i < |worlds| && run[i].node == AtExecution
    requires run[i].s.decision.pending.Some? && |run[i].s.decision.pending.value.calls| == 2
    requires BothSucceed(run[i].s, run[i].s.decision.pending.value, worlds[i].execution)
    ensures run[i + 1].s.transition.request.Some?
  {
    RunKeepsInv(cfg, run, worlds, i);
    RunIsCaptured(cfg, run, worlds, i);
    assert run[i] == Config(AtExecution, run[i].s);
    InputIsOneGroup(cfg, run[i].s, run[i].s.decision.pending.value, worlds[i].execution);
    assert run[i + 1] == Next(cfg, run[i], worlds[i]);
  }

  // -------------------------------------------------------------------- model calls

  /** The stage budget and the error counter are as they were. */
  predicate SameBudget(s: WorkerState, r: WorkerState) {
    && r.decision.(pending := None) == s.decision.(pending := None)
    && r.transition.errorCount == s.transition.errorCount
  }

  /** Any pending action is the one that was pending, or was chosen by a policy or a rule. */
  predicate NotByModel(s: WorkerState, r: WorkerState) {
    r.decision.pending.Some? && r.decision.pending != s.decision.pending ==>
      r.decision.pending.value.source in {Reflex, CardQueue, ResultsNavigation, ScreenPolicy}
  }

  lemma TryReflexIsFree(cfg: Cfg, s: WorkerState, rules: seq<RuleCandidate>)
    ensures var r := TryReflex(cfg, s, rules); SameBudget(s, r) && NotByModel(s, r)
  {}

  lemma RunOcrIsFree(cfg: Cfg, s: WorkerState, result: OcrResult)
    requires RunOcr(cfg, s, result).Some?
    ensures var r := RunOcr(cfg, s, result).value; SameBudget(s, r) && r.decision.pending == s.decision.pending
  {}

  lemma SelectIsFree(cfg: Cfg, s: WorkerState, found: Lookup)
    ensures var r := Select(cfg, s, found); SameBudget(s, r) && NotByModel(s, r)
  {}

  lemma PrepareIsFree(cfg: Cfg, s: WorkerState, a: Answers)
    requires Prepare(cfg, s, a).Some?
    ensures var r := Prepare(cfg, s, a).value; SameBudget(s, r) && NotByModel(s, r)
  {
    if !ObservationReady(s) {
      TryReflexIsFree(cfg, s, a.rulesBeforeOcr);
      var tried :=
        if s.transition.result.status in {NeedsOcr, Unknown} then s else TryReflex(cfg, s, a.rulesBeforeOcr);
      if s.transition.result.status in {NeedsOcr, Unknown} || !HasReflexAction(tried) {
        RunOcrIsFree(cfg, tried, a.ocr);
        SelectIsFree(cfg, RunOcr(cfg, tried, a.ocr).value, a.second);
      }
    }
  }

  /** Calls charged to a stage so far. */
  function ChargedTo(d: Decision, stage: Stage): nat { if d.stage == stage then d.stageCalls else 0 }

  /** The reasoning node leaves its request, and a model's request raised what its stage is charged. */
  predicate ByModel(s: WorkerState, r: WorkerState) {
    && r.decision.pending.Some? && r.decision.pending.value.source in {Llm, ReasoningPolicy}
    && r.decision.stageCalls >= ChargedTo(s.decision, r.decision.stage)
    && (r.decision.pending.value.source == Llm ==> r.decision.stageCalls > ChargedTo(s.decision, r.decision.stage))
  }

  lemma ReasonIsCharged(cfg: Cfg, s: WorkerState, env: Reflection)
    requires s.decision.stageCalls <= cfg.callLimit
    ensures ByModel(s, ReasonNext(cfg, s, env))
  {
    ReasoningIsGated(cfg, s, env);
    if StageCalls(s) < cfg.callLimit { ChoiceProperties(cfg, s, env, FirstTier(s, env), StageCalls(s)); }
  }

  lemma DeliberateIsCharged(cfg: Cfg, s: WorkerState, a: Answers)
    requires s.decision.stageCalls <= cfg.callLimit
    ensures var r := Deliberate(cfg, s, a); ByModel(s, r) || (SameBudget(s, r) && HasReflexAction(r))
  {
    TryReflexIsFree(cfg, s, a.rulesAfterOcr);
    ReasonIsCharged(cfg, s, a.reflection);
    ReasonIsCharged(cfg, TryReflex(cfg, s, a.rulesAfterOcr), a.reflection);
  }

  /**
   Only asking a model is charged: a decision that ends with a rule step or a
   policy action, or without an action, leaves the stage budget and the error
   counter alone; every other one ends with the model's request, whose stage is
   then charged more than before, or with the policy stop, charged no less.
   */
  lemma OnlyModelCallsAreCharged(cfg: Cfg, s: WorkerState, a: Answers)
    requires Inv(cfg, Config(AtDecision, s))
    ensures Decide(cfg, s, a).Some?
    ensures var r := Decide(cfg, s, a).value; ByModel(s, r) || (SameBudget(s, r) && NotByModel(s, r))
  {
    DecideKeepsInv(cfg, s, a);
    if ReviewFollowUpDue(s) {
      ReasonIsCharged(cfg, s, a.reflection);
    } else {
      SelectIsFree(cfg, s, a.first);
      var selected := Select(cfg, s, a.first);
      if !Resolved(selected) {
        PrepareIsFree(cfg, selected, a);
        DeliberateIsCharged(cfg, Prepare(cfg, selected, a).value, a);
      }
    }
  }
}
