/**
 The observation node and the decision node of the worker graph
 (agent/graph/worker_cycle.py, agent/graph/worker_observation.py).
 */
module WorkerCycle {
  import opened Prelude
  import opened ExecutionRecord
  import opened WorkerContracts
  import opened ReplayRuntime
  import opened WorkerTransition
  import opened WorkerSelection
  import opened WorkerReasoning
  import JobCardQueue

  // ------------------------------------------------------------------- observation

  /** What one capture reads from the screen. */
  datatype Sight = Sight(screenshot: NonEmpty, lowInfo: bool, fetchedUrl: string, see: Screening)

  function PreviousOf(obs: Observation): Option<PreviousObservation> {
    if obs.ocrComplete && obs.sequence > 0 && obs.screenshot != "" && obs.markers != {}
    then Some(PreviousObservation(obs.sequence, obs.screenshot, obs.url, obs.markers, obs.role))
    else obs.previous
  }

  /** `capture_node` */
  function CaptureScreen(s: WorkerState, sight: Sight): WorkerState {
    var obs := s.obs;
    var request := s.transition.request;
    var fetch := obs.urlStale || obs.url == "" || request.Some?;
    var url := if fetch && sight.fetchedUrl != "" then sight.fetchedUrl else obs.url;
    var previous := PreviousOf(obs);
    var role :=
      if request.Some? && request.value.action == Scroll && previous.Some? && url == previous.value.url
      then previous.value.role else NoRole;
    s.(obs := Observation(
      obs.sequence + 1, sight.screenshot, false,
      sight.lowInfo, if sight.lowInfo then obs.lowCount + 1 else 0,
      url, if fetch then sight.fetchedUrl == "" else obs.urlStale, role, {}, previous))
  }

  /** `observation_node` */
  function Observe(cfg: Cfg, s: WorkerState, sight: Sight): WorkerState {
    Inspect(cfg, CaptureScreen(s, sight), sight.see)
  }

  // ---------------------------------------------------------------------- decision

  datatype OcrResult = OcrResult(markers: set<int>, role: Role, see: Screening)

  /** Everything the outside world may answer during one decision. */
  datatype Answers = Answers(
    first: Lookup, second: Lookup, ocr: OcrResult,
    rulesBeforeOcr: seq<RuleCandidate>, rulesAfterOcr: seq<RuleCandidate>,
    reflection: Reflection)

  /** `ocr_node`; None is the RuntimeError for a missing capture. */
  function Ocr(s: WorkerState, result: OcrResult): Option<WorkerState> {
    if s.obs.screenshot == "" then None
    else
      var role := if result.role != NoRole then result.role else s.obs.role;
      var stage :=
        match role
        case JobDetail => Detail
        case Search => Results
        case Home | Form | ErrorPage => Navigation
        case _ => s.stage;
      Some(s.(
        obs := s.obs.(markers := result.markers, role := role, ocrComplete := true, lowInfo := false),
        stage := stage))
  }

  /** `_run_ocr` */
  function RunOcr(cfg: Cfg, s: WorkerState, result: OcrResult): Option<WorkerState> {
    match Ocr(s, result)
    case None => None
    case Some(read) =>
      if read.transition.request.None? || read.transition.result.status != NeedsOcr then Some(read)
      else Complete(cfg, read, result.see)
  }

  /** `_reflex_missed_current_observation` */
  predicate ReflexMissed(s: WorkerState) {
    s.obs.sequence > 0 && s.replay.trace.hit == Some(false) && s.replay.trace.sequence == s.obs.sequence
  }

  predicate HasReflexAction(s: WorkerState) {
    s.decision.pending.Some? && s.decision.pending.value.source == Reflex
  }

  /** `_try_reflex` */
  function TryReflex(cfg: Cfg, s: WorkerState, rules: seq<RuleCandidate>): WorkerState {
    if !cfg.reflexEnabled || ReflexMissed(s) then s else AttemptReplay(s, rules)
  }

  /** `_decision_is_resolved` */
  predicate Resolved(s: WorkerState) {
    s.lifecycle.finished || s.decision.pending.Some? || s.obs.lowInfo || s.transition.result.status == PendingCapture
  }

  /** The last recorded call asked for a review. */
  predicate LastIsReview(s: WorkerState) {
    var events := s.transition.events;
    events != [] && events[|events| - 1].tool == Some(ReviewJobDetail)
  }

  /** `_review_follow_up_due` */
  predicate ReviewFollowUpDue(s: WorkerState) {
    s.collection.lastReview.Some? && s.collection.lastReview.value.status == NeedsMore && LastIsReview(s)
  }

  /** `_prepare_current_observation` */
  function Prepare(cfg: Cfg, s: WorkerState, a: Answers): Option<WorkerState> {
    if ObservationReady(s) then Some(s)
    else
      var tried :=
        if s.transition.result.status in {NeedsOcr, Unknown} then s else TryReflex(cfg, s, a.rulesBeforeOcr);
      if s.transition.result.status !in {NeedsOcr, Unknown} && HasReflexAction(tried) then Some(tried)
      else
        match RunOcr(cfg, tried, a.ocr)
        case None => None
        case Some(read) => Some(Select(cfg, read, a.second))
  }

  /** The last part of `decision_node`: an unclear screen goes to the model, a clear one to the rules first. */
  function Deliberate(cfg: Cfg, s: WorkerState, a: Answers): WorkerState {
    if JobCardQueue.Unresolved(s.collection.queue) || s.transition.result.status == Unknown
    then ReasonNext(cfg, s, a.reflection)
    else
      var tried := TryReflex(cfg, s, a.rulesAfterOcr);
      if HasReflexAction(tried) then tried else ReasonNext(cfg, tried, a.reflection)
  }

  /** `decision_node`; None is a RuntimeError raised inside the node. */
  function Decide(cfg: Cfg, s: WorkerState, a: Answers): Option<WorkerState> {
    if s.lifecycle.finished || s.decision.pending.Some? then Some(s)
    else if ReviewFollowUpDue(s) then Some(ReasonNext(cfg, s, a.reflection))
    else
      var selected := Select(cfg, s, a.first);
      if Resolved(selected) then Some(selected)
      else
        match Prepare(cfg, selected, a)
        case None => None
        case Some(ready) => Some(if Resolved(ready) then ready else Deliberate(cfg, ready, a))
  }

  // ------------------------------------------------------------------ laws of a cycle

  /** A capture on which no rule applied is not searched for rules again. */
  lemma RulesAreTriedOnce(cfg: Cfg, s: WorkerState, rules: seq<RuleCandidate>, again: seq<RuleCandidate>)
    requires cfg.reflexEnabled && s.obs.sequence > 0 && s.decision.pending.None?
    requires !HasReflexAction(TryReflex(cfg, s, rules))
    ensures var r := TryReflex(cfg, s, rules);
      TryReflex(cfg, r, again) == r && ReflexMissed(r) && r.obs == s.obs
  {}
}
