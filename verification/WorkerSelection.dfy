/**
 Deterministic policies tried before any rule or model
 (agent/graph/worker_selection.py, agent/runtime/job_card_queue.py).
 */
module WorkerSelection {
  import opened Prelude
  import opened ExecutionRecord
  import opened WorkerContracts
  import opened JobCardQueue

  /** Answers of the database and of marker matching for one selection. */
  datatype Lookup = Lookup(
    duplicate: Option<Option<int>>,   // the detail URL is stored, maybe under a database id
    cardMarkerFound: bool)            // the next card is visible and unambiguous

  function PolicyRequest(source: Source, name: ToolName): ActionRequest {
    ActionRequest(source, [PlainCall(name)], None)
  }

  function Propose(s: WorkerState, request: ActionRequest): WorkerState {
    s.(decision := s.decision.(pending := Some(request)))
  }

  function SkipDuplicateDetail(cfg: Cfg, s: WorkerState, jobId: Option<int>): WorkerState {
    SkippedTo(cfg, s, SettleActive(s.collection.queue, SkipExisting(jobId)))
  }

  function SkippedTo(cfg: Cfg, s: WorkerState, queue: Queue): WorkerState {
    var skipped := s.(
      transition := s.transition.(
        request := None,
        result := s.transition.result.(status := Ready, reason := ExistingJobDetail)),
      collection := s.collection.(queue := queue));
    if ScopeComplete(queue, cfg.intent.mode, cfg.intent.target)
    then Finish(skipped, ScopeReason(cfg.intent)) else skipped
  }

  /** `needs_job_results_navigation` */
  predicate NeedsResultsNavigation(cfg: Cfg, s: WorkerState) {
    var result := s.transition.result;
    var review := s.collection.lastReview;
    var queue := s.collection.queue;
    var rejectedDetail := review.Some? && review.value.status in {SourceIncomplete, InvalidTarget} &&
      cfg.withoutFragment(review.value.url) == cfg.withoutFragment(s.obs.url);
    var detailCompleted := (exists capture | capture in s.collection.captures :: capture.url == s.obs.url)
      || result.reason == ExistingJobDetail || rejectedDetail;
    var continuing := result.source == Some(ResultsNavigation) && result.action in {Some(GoBack), Some(CloseCurrentTab)};
    && (detailCompleted || continuing)
    && !HasActive(queue)
    && (HasPending(queue) ||
        (cfg.intent.target > 0 && |s.collection.captures| < cfg.intent.target && ResolvedCount(queue) < cfg.intent.target))
    && (s.obs.role == JobDetail || cfg.isDetailUrl(s.obs.url))
  }

  /** The two fixed steps back to the list: go back, then close a tab that did not move. */
  function ResultsNavigationStep(cfg: Cfg, s: WorkerState): Option<ToolName> {
    var result := s.transition.result;
    if !NeedsResultsNavigation(cfg, s) then None
    else if result.action == Some(GoBack) && result.status == Unknown && result.reason in {NoScreenChange, ReflexNoScreenChange}
    then Some(CloseCurrentTab)
    else if result.action in {Some(GoBack), Some(CloseCurrentTab)} then None
    else Some(GoBack)
  }

  /** `can_select_pending_job_card` */
  predicate CanSelectPendingCard(cfg: Cfg, s: WorkerState) {
    && s.obs.ocrComplete
    && s.obs.role == Search
    && !cfg.isDetailUrl(s.obs.url)
    && HasPending(s.collection.queue)
    && !HasActive(s.collection.queue)
  }

  function QueuedCardRequest(queue: Queue): ActionRequest
    requires HasPending(queue)
  {
    ActionRequest(CardQueue, [ToolCall(ClickMarker, "", [], queue[FirstPending(queue)].queueId)], None)
  }

  /** `selection_node` */
  function Select(cfg: Cfg, s: WorkerState, found: Lookup): WorkerState {
    if s.decision.pending.Some? then s
    else if s.obs.lowInfo then
      if s.obs.lowCount >= cfg.maxLowCycles then Propose(s, PolicyRequest(ScreenPolicy, FinishTask)) else s
    else if s.replay.session.Some? then s
    else if HasActive(s.collection.queue) && cfg.isDetailUrl(s.obs.url) && found.duplicate.Some? then
      SkipDuplicateDetail(cfg, s, found.duplicate.value)
    else
      match ResultsNavigationStep(cfg, s)
      case Some(name) => Propose(s, PolicyRequest(ResultsNavigation, name))
      case None =>
        if CanSelectPendingCard(cfg, s) && found.cardMarkerFound
        then Propose(s, QueuedCardRequest(s.collection.queue)) else s
  }

  /**
   Going back to the list takes two fixed steps: `go_back` first, and a closed
   tab only right after a `go_back` that changed nothing.
   */
  lemma NavigationTakesTwoSteps(cfg: Cfg, s: WorkerState, found: Lookup)
    requires s.decision.pending.None? && Select(cfg, s, found).decision.pending.Some?
    requires Select(cfg, s, found).decision.pending.value.source == ResultsNavigation
    ensures var request := Select(cfg, s, found).decision.pending.value;
      && |request.calls| == 1 && request.calls[0].name in {GoBack, CloseCurrentTab}
      && (request.calls[0].name == CloseCurrentTab ==>
            s.transition.result.action == Some(GoBack) && s.transition.result.status == Unknown &&
            s.transition.result.reason in {NoScreenChange, ReflexNoScreenChange})
      && (request.calls[0].name == GoBack ==> s.transition.result.action !in {Some(GoBack), Some(CloseCurrentTab)})
      && !HasActive(s.collection.queue) && s.replay.session.None?
  {}

  /** A queued click names the first pending card, on a read search page, with no card active. */
  lemma QueuedClickIsNextCard(cfg: Cfg, s: WorkerState, found: Lookup)
    requires s.decision.pending.None? && Select(cfg, s, found).decision.pending.Some?
    requires Select(cfg, s, found).decision.pending.value.source == CardQueue
    requires WellKept(s.collection.queue)
    ensures var request := Select(cfg, s, found).decision.pending.value;
      var queue := s.collection.queue;
      && |request.calls| == 1 && request.calls[0].name == ClickMarker
      && 1 <= request.calls[0].queueId <= |queue|
      && queue[request.calls[0].queueId - 1].status == Pending
      && (forall i :: 0 <= i < request.calls[0].queueId - 1 ==> queue[i].status != Pending)
      && !HasActive(queue) && s.obs.ocrComplete && s.obs.role == Search && s.replay.session.None?
  {}
}
