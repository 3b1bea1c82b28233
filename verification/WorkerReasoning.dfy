/**
 Asking a model for the next action: the tool gate, the tiers and the stage
 budget (agent/graph/worker_reasoning.py).
 */
module WorkerReasoning {
  import opened Prelude
  import opened ExecutionRecord
  import opened WorkerContracts
  import JobCardQueue

  /** One attempt: the cost limit was reached before it, or the model's parsed tool calls. */
  datatype Attempt = Attempt(costExceeded: bool, reply: Option<seq<ToolCall>>)

  datatype Reflection = Reflection(
    reviewAvailable: bool,     // the detail buffer holds text that was not reviewed yet
    loopWarning: bool,         // three equal actions, or two screens in alternation
    persistentLoop: bool,      // four equal actions
    costExceeded: bool,
    attempts: nat -> Attempt)

  /** `_reasoning_tool_names` */
  predicate Allowed(s: WorkerState, reviewAvailable: bool, name: ToolName) {
    match name
    case ClickMarker | TypeInMarker => s.obs.ocrComplete && s.obs.markers != {}
    case SetJobCardQueue =>
      s.obs.ocrComplete && s.obs.markers != {} && !JobCardQueue.Unresolved(s.collection.queue)
    case ReviewJobDetail => reviewAvailable
    case FinishTask => !reviewAvailable && !JobCardQueue.Unresolved(s.collection.queue)
    case _ => true
  }

  /** A reply that becomes an action request: allowed tools, one supported group, no call metadata. */
  predicate ValidReply(s: WorkerState, reviewAvailable: bool, calls: seq<ToolCall>) {
    && calls != []
    && SupportedGroup(calls)
    && forall call | call in calls :: Allowed(s, reviewAvailable, call.name) && call.queueId == 0
  }

  /** Calls spent on the stage so far, and the calls chosen, None to stop. */
  datatype Choice = Choice(stageCalls: nat, calls: Option<seq<ToolCall>>)

  function StageCalls(s: WorkerState): nat {
    if s.decision.stage == s.stage then s.decision.stageCalls else 0
  }

  function ChoiceFrom(cfg: Cfg, s: WorkerState, env: Reflection, tier: nat, stageCalls: nat): Choice
    requires tier <= 2
    decreases 2 - tier
  {
    if tier == 2 || stageCalls >= cfg.callLimit || env.attempts(tier).costExceeded then Choice(stageCalls, None)
    else
      var reply := env.attempts(tier).reply;
      if reply.Some? && ValidReply(s, env.reviewAvailable, reply.value) then Choice(stageCalls + 1, reply)
      else ChoiceFrom(cfg, s, env, tier + 1, stageCalls + 1)
  }

  /** The first tier tried: the light model (0), or the strong one (1) after an unknown effect or a loop. */
  function FirstTier(s: WorkerState, env: Reflection): nat {
    if s.transition.result.status == Unknown || env.loopWarning then 1 else 0
  }

  function ModelChoice(cfg: Cfg, s: WorkerState, env: Reflection): Choice {
    if StageCalls(s) >= cfg.callLimit || env.costExceeded then Choice(StageCalls(s), None)
    else ChoiceFrom(cfg, s, env, FirstTier(s, env), StageCalls(s))
  }

  /** `_choose_reasoning_action`: each tier at most once, each attempt charged to the stage. */
  method ChooseReasoningAction(cfg: Cfg, s: WorkerState, env: Reflection, firstTier: nat, spent: nat)
    returns (stageCalls: nat, calls: Option<seq<ToolCall>>)
    requires firstTier <= 1
    ensures Choice(stageCalls, calls) == ChoiceFrom(cfg, s, env, firstTier, spent)
    ensures spent <= cfg.callLimit ==> stageCalls <= cfg.callLimit
    ensures stageCalls <= spent + 2 - firstTier
    ensures calls.Some? ==> ValidReply(s, env.reviewAvailable, calls.value) && stageCalls > spent
  {
    stageCalls := spent;
    var tier := firstTier;
    while tier < 2
      invariant firstTier <= tier <= 2
      invariant ChoiceFrom(cfg, s, env, tier, stageCalls) == ChoiceFrom(cfg, s, env, firstTier, spent)
      invariant spent <= cfg.callLimit ==> stageCalls <= cfg.callLimit
      invariant stageCalls == spent + tier - firstTier
    {
      var attempt := env.attempts(tier);
      if stageCalls >= cfg.callLimit || attempt.costExceeded { return stageCalls, None; }
      if attempt.reply.Some? && ValidReply(s, env.reviewAvailable, attempt.reply.value) {
        return stageCalls + 1, attempt.reply;
      }
      stageCalls := stageCalls + 1;
      tier := tier + 1;
    }
    calls := None;
  }

  /** `reasoning_node`: always ends with a request, if only to finish. */
  function ReasonNext(cfg: Cfg, s: WorkerState, env: Reflection): WorkerState {
    var choice := ModelChoice(cfg, s, env);
    var request :=
      if choice.calls.Some? then ActionRequest(Llm, choice.calls.value, None)
      else ActionRequest(ReasoningPolicy, [PlainCall(FinishTask)], None);
    s.(decision := Decision(Some(request), s.stage, choice.stageCalls),
       replay := s.replay.(trace := ReflexTrace(Some(false), 0, "")),
       transition := s.transition.(
         errorCount := s.transition.errorCount + if choice.calls.Some? && env.persistentLoop then 1 else 0))
  }

  lemma {:induction false} ChoiceProperties(cfg: Cfg, s: WorkerState, env: Reflection, tier: nat, stageCalls: nat)
    requires tier <= 2
    ensures var c := ChoiceFrom(cfg, s, env, tier, stageCalls);
      && (stageCalls <= cfg.callLimit ==> c.stageCalls <= cfg.callLimit)
      && stageCalls <= c.stageCalls <= stageCalls + 2 - tier
      && (c.calls.Some? ==> ValidReply(s, env.reviewAvailable, c.calls.value) && c.stageCalls > stageCalls)
    decreases 2 - tier
  {
    if tier < 2 { ChoiceProperties(cfg, s, env, tier + 1, stageCalls + 1); }
  }

  /**
   Whatever the model answers, a request results; a queue is only proposed when
   every card is settled, and the stage budget is never exceeded.
   */
  lemma ReasoningIsGated(cfg: Cfg, s: WorkerState, env: Reflection)
    requires s.decision.stageCalls <= cfg.callLimit
    ensures var r := ReasonNext(cfg, s, env);
      && r.decision.stageCalls <= cfg.callLimit
      && r.decision.pending.Some?
      && var request := r.decision.pending.value;
      && request.source in {Llm, ReasoningPolicy}
      && request.calls != [] && SupportedGroup(request.calls)
      && (forall call | call in request.calls :: call.queueId == 0)
      && (forall call | call in request.calls ::
            call.name == SetJobCardQueue ==> |request.calls| == 1 && !JobCardQueue.Unresolved(s.collection.queue))
      && (StageCalls(s) >= cfg.callLimit ==> request.source == ReasoningPolicy)
      && r.decision.stageCalls <= StageCalls(s) + 2
      && (s.transition.result.status == Unknown || env.loopWarning ==> r.decision.stageCalls <= StageCalls(s) + 1)
      && (request.source == Llm ==>
            && r.decision.stageCalls > StageCalls(s)
            && (forall call | call in request.calls && call.name in {ClickMarker, TypeInMarker} ::
                  s.obs.ocrComplete && s.obs.markers != {})
            && (forall call | call in request.calls && call.name == FinishTask ::
                  !env.reviewAvailable && !JobCardQueue.Unresolved(s.collection.queue))
            && (forall call | call in request.calls && call.name == ReviewJobDetail :: env.reviewAvailable))
  {
    if StageCalls(s) < cfg.callLimit {
      ChoiceProperties(cfg, s, env, FirstTier(s, env), StageCalls(s));
    }
  }
}
