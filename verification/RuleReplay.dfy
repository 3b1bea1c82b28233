/**
 From a recorded transition to the rule step compiled from it and back to the
 judgement of that step in a later run: when a replay that repeats the recorded
 screens is verified (agent/application/experience_rule_compiler.py,
 agent/graph/worker_transition_recording.py, agent/recipe/replay_runtime.py).
 */
module RuleReplay {
  import opened Prelude
  import opened ExecutionRecord
  import W = WorkerContracts
  import RuleCompiler
  import C = ExperienceRuleCompiler
  import WorkerExecution
  import ReplayRuntime
  import RulePromotion

  function KindOf(kind: C.EffectKind): W.EffectKind {
    match kind
    case UrlChange => W.UrlChange
    case PageChange => W.PageChange
    case ScreenChange => W.ScreenChange
  }

  function ToolsOf(actions: seq<C.RuleAction>): seq<ToolName> {
    seq(|actions|, i requires 0 <= i < |actions| => actions[i].tool)
  }

  /** `_build_request`: the metadata of a request built from a stored step. */
  function StepRequest(key: W.NonEmpty, index: nat, count: nat, step: C.RuleStep): W.ReplayStep {
    W.ReplayStep(key, index, count, W.ExpectedEffect(KindOf(step.effect.kind), step.effect.url, step.effect.role),
                 step.before.role, ToolsOf(step.actions))
  }

  /** What the URL library promises: an empty URL has no template, and a URL is in the scope of its own template. */
  ghost predicate UrlHelpersAgree(cfg: W.Cfg) {
    cfg.urlTemplate("") == "" && forall url :: cfg.scopeMatches(cfg.urlTemplate(url), url)
  }

  /** The open request came from the step, executed without failure where `seen` was the role on screen. */
  predicate IsRequestOf(request: W.TransitionRequest, step: C.RuleStep, seen: Role) {
    && !request.executionFailed && request.replay.Some?
    && request.replay.value ==
         StepRequest(request.replay.value.recipeKey, request.replay.value.index, request.replay.value.count, step)
    && request.beforeRole == if step.before.role != NoRole then step.before.role else seen
  }

  /** A request that the execution node opens for a rule step is such a request. */
  lemma ExecutedStepIsRequestOf(
      s: W.WorkerState, req: W.ActionRequest, seqNo: nat, name: ToolName, source: W.Source,
      key: W.NonEmpty, index: nat, count: nat, step: C.RuleStep)
    requires req.replay == Some(StepRequest(key, index, count, step))
    ensures IsRequestOf(WorkerExecution.GroupedRequest(s, req, seqNo, name, source), step, s.obs.role)
  {}

  /** The replay starts on the page and ends on the page and role of the recording. */
  predicate Repeats(cfg: W.Cfg, t: ObservedTransition, request: W.TransitionRequest, obs: W.Observation) {
    && cfg.urlTemplate(request.beforeUrl) == t.before.urlTemplate
    && cfg.urlTemplate(obs.url) == t.after.urlTemplate
    && obs.role == t.after.role
  }

  /** The pixels changed by at least the configured ratio. */
  predicate PixelsChanged(cfg: W.Cfg, request: W.TransitionRequest, obs: W.Observation, frame: Option<real>) {
    && request.beforeScreenshot != "" && obs.screenshot != ""
    && frame.Some? && frame.value >= 0.0 && frame.value >= cfg.minEffectRatio
  }

  /** What repeating a recording still needs: a known start URL, a known start role, or changed pixels. */
  predicate Provable(
      cfg: W.Cfg, t: ObservedTransition, request: W.TransitionRequest, seen: Role, obs: W.Observation, frame: Option<real>)
  {
    match C.ExpectedEffect(t).kind
    case UrlChange => request.beforeUrl != ""
    case PageChange => t.before.role != NoRole || seen !in {NoRole, t.after.role}
    case ScreenChange => PixelsChanged(cfg, request, obs, frame)
  }

  /**
   Compile, then replay: a replay that repeats the recorded screens is verified
   exactly when its start can be compared with its end.
   */
  lemma RepetitionIsVerifiedIff(
      cfg: W.Cfg, t: ObservedTransition, step: C.RuleStep, request: W.TransitionRequest, seen: Role,
      obs: W.Observation, frame: Option<real>)
    requires UrlHelpersAgree(cfg)
    requires step.before == t.before && step.effect == C.ExpectedEffect(t)
    requires IsRequestOf(request, step, seen) && Repeats(cfg, t, request, obs)
    ensures ReplayRuntime.EffectVerified(cfg, request, obs, frame) <==> Provable(cfg, t, request, seen, obs, frame)
  {
    assert cfg.scopeMatches(cfg.urlTemplate(obs.url), obs.url);
  }

  /**
   The other way: a replay that is still on its start screen is not verified,
   unless the recording changed neither page nor role and a ratio of zero is
   configured as enough.
   */
  lemma StandstillIsVerifiedIff(
      cfg: W.Cfg, t: ObservedTransition, step: C.RuleStep, request: W.TransitionRequest, seen: Role, obs: W.Observation)
    requires UrlHelpersAgree(cfg)
    requires step.before == t.before && step.effect == C.ExpectedEffect(t)
    requires IsRequestOf(request, step, seen) && cfg.urlTemplate(request.beforeUrl) == t.before.urlTemplate
    requires obs.url == request.beforeUrl && obs.role == request.beforeRole
    requires request.beforeScreenshot != "" && obs.screenshot != ""
    ensures ReplayRuntime.EffectVerified(cfg, request, obs, Some(0.0)) <==>
      C.ExpectedEffect(t).kind == C.ScreenChange && cfg.minEffectRatio <= 0.0
  {
    assert cfg.scopeMatches(cfg.urlTemplate(obs.url), obs.url);
  }

  /** Every step of a compiled rule has its recorded transition, and repeating that is verified as said. */
  lemma RuleStepsCanBeRepeated(
      cfg: W.Cfg, log: Log, graph: RuleCompiler.Graph, selected: seq<string>, keyword: string, i: nat)
    returns (t: ObservedTransition)
    requires UrlHelpersAgree(cfg)
    requires RuleCompiler.GraphContract(log, graph) && RuleCompiler.DistinctEvents(log)
    requires C.Compile(log, graph, selected, keyword).Ok?
    requires i < |C.Compile(log, graph, selected, keyword).value.steps|
    ensures t in RuleCompiler.Recorded(log)
    ensures forall request, seen, obs, frame ::
      var step := C.Compile(log, graph, selected, keyword).value.steps[i];
      IsRequestOf(request, step, seen) && Repeats(cfg, t, request, obs) ==>
        (ReplayRuntime.EffectVerified(cfg, request, obs, frame) <==> Provable(cfg, t, request, seen, obs, frame))
  {
    var kept := RulePromotion.RuleIsSelectionOfRun(log, graph, selected, keyword);
    t := kept[i];
    var at: seq<nat> :| Selects(RuleCompiler.Recorded(log), kept, at);
    assert t == RuleCompiler.Recorded(log)[at[i]];
    var step := C.Compile(log, graph, selected, keyword).value.steps[i];
    forall request, seen, obs, frame | IsRequestOf(request, step, seen) && Repeats(cfg, t, request, obs)
      ensures ReplayRuntime.EffectVerified(cfg, request, obs, frame) <==> Provable(cfg, t, request, seen, obs, frame)
    {
      RepetitionIsVerifiedIff(cfg, t, step, request, seen, obs, frame);
    }
  }

  /** `_tool_args`: one call per action, without queue metadata. */
  function CallsOf(actions: seq<C.RuleAction>): seq<W.ToolCall> {
    seq(|actions|, i requires 0 <= i < |actions| => W.ToolCall(actions[i].tool, actions[i].key, [], 0))
  }

  function BindingOf(step: C.RuleStep, addedMarkers: set<int>): ReplayRuntime.Binding {
    var request := StepRequest("x", 0, 0, step);
    ReplayRuntime.Binding(request.effect, request.beforeRole, request.actions, CallsOf(step.actions), addedMarkers)
  }

  lemma SupportedActionsBindValidly(actions: seq<ObservedAction>, keyword: string, step: C.RuleStep, addedMarkers: set<int>)
    requires C.SupportedActions(actions) && C.ToRuleActions(actions, keyword) == Ok(step.actions)
    ensures ReplayRuntime.ValidBinding(BindingOf(step, addedMarkers))
  {
    C.ActionsCompileIff(actions, keyword);
    assert forall k :: 0 <= k < |actions| ==> C.ToRuleAction(actions[k], keyword) == Ok(step.actions[k]);
  }

  /** Whatever a run recorded, the steps of its rule bind to calls that pass the request contract. */
  lemma CompiledStepsBindValidly(
      log: Log, graph: RuleCompiler.Graph, selected: seq<string>, keyword: string, i: nat, addedMarkers: set<int>)
    requires RuleCompiler.GraphContract(log, graph) && RuleCompiler.DistinctEvents(log)
    requires C.Compile(log, graph, selected, keyword).Ok?
    requires i < |C.Compile(log, graph, selected, keyword).value.steps|
    ensures ReplayRuntime.ValidBinding(BindingOf(C.Compile(log, graph, selected, keyword).value.steps[i], addedMarkers))
  {
    var kept := RulePromotion.RuleIsSelectionOfRun(log, graph, selected, keyword);
    var step := C.Compile(log, graph, selected, keyword).value.steps[i];
    assert C.Replayable(kept[i], keyword);
    SupportedActionsBindValidly(kept[i].actions, keyword, step, addedMarkers);
  }
}
