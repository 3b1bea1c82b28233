/**
 Judging the effect of the last action (agent/graph/worker_transition.py,
 agent/runtime/transition_runtime.py).
 */
module WorkerTransition {
  import opened Prelude
  import opened ExecutionRecord
  import opened WorkerContracts
  import opened ReplayRuntime

  /** What the image and text comparisons report about the current capture. */
  datatype Screening = Screening(
    visualChanged: bool,      // pixels differ from the capture before the action
    frame: Option<real>,      // changed-pixel ratio, None when a capture cannot be read
    inputConfirmed: bool,     // the typed text is new in the OCR result
    detailContext: bool)      // URL, role and markers look like a job detail page

  datatype Verdict = Verdict(status: TransitionStatus, reason: Reason, block: bool, reuse: bool)

  predicate InputOccurred(request: TransitionRequest) {
    request.action == TypeInMarker || TypeInMarker in request.actions
  }

  function DecideBeforeOcr(cfg: Cfg, obs: Observation, request: TransitionRequest, see: Screening): Verdict {
    if request.source == Reflex && EffectVerified(cfg, request, obs, see.frame)
    then Verdict(NeedsOcr, RuleEffectOcrRequired, false, false)
    else if see.visualChanged then Verdict(NeedsOcr, OcrRequired, false, false)
    else if InputOccurred(request) then Verdict(NeedsOcr, InputOcrRequired, false, false)
    else
      Verdict(Unknown, if request.source == Reflex then ReflexNoScreenChange else NoScreenChange,
              request.source == Reflex, true)
  }

  function DecideAfterOcr(cfg: Cfg, obs: Observation, request: TransitionRequest, see: Screening, visualChanged: bool)
    : Verdict
  {
    var urlChanged := request.beforeUrl != "" && obs.url != "" && request.beforeUrl != obs.url;
    if request.source == Reflex then
      var verified := EffectVerified(cfg, request, obs, see.frame);
      Verdict(if verified then Ready else Unknown, RuleEffectJudged, !verified, false)
    else if request.source == CardQueue && !see.detailContext then
      Verdict(Unknown, CardDetailNotReached, false, false)
    else if obs.markers != {} && (urlChanged || visualChanged || (InputOccurred(request) && see.inputConfirmed)) then
      Verdict(Ready, if visualChanged then PixelsMatched else if urlChanged then UrlMatched else InputTextMatched,
              false, false)
    else if !urlChanged && !visualChanged then Verdict(Unknown, NoScreenChange, false, false)
    else Verdict(Unknown, ChangeUnverified, false, false)
  }

  /** Without a screen change the last OCR result is attached to the new capture. */
  function ReusedOcr(obs: Observation, request: TransitionRequest): Observation {
    if obs.previous.None? then obs
    else
      var previous := obs.previous.value;
      if || request.beforeSequence != previous.sequence
         || request.beforeScreenshot != previous.screenshot
         || (request.beforeUrl != "" && previous.url != "" && request.beforeUrl != previous.url)
         || previous.markers == {}
      then obs
      else
        obs.(markers := previous.markers, role := previous.role, ocrComplete := true,
             previous := Some(PreviousObservation(
               obs.sequence, obs.screenshot, if obs.url != "" then obs.url else previous.url,
               previous.markers, previous.role)))
  }

  /** `_completed_transition_update`: the request is consumed and its outcome recorded. */
  function Completed(cfg: Cfg, s: WorkerState, request: TransitionRequest, v: Verdict, visualChanged: bool)
    : WorkerState
  {
    var obs := if v.reuse then ReusedOcr(s.obs, request) else s.obs;
    s.(obs := obs,
       transition := s.transition.(
         request := None,
         result := ResultFor(Some(request), v.status, v.reason, visualChanged),
         events := AttachTransition(s.transition.events, request.actionSeqs, request.actionSeq,
                                    Screen(cfg.urlTemplate(obs.url), obs.role), v.status == Ready)),
       replay := s.replay.(
         session := SessionAfterTransition(s.replay.session, request.source, v.status),
         blocked := BlockedAfter(s.replay.blocked, request, v.block),
         history := JudgedHistory(s.replay, request, v.status)))
  }

  /** `inspect_action_effect`: the cheap judgement right after a capture. */
  function Inspect(cfg: Cfg, s: WorkerState, see: Screening): WorkerState {
    var request := s.transition.request;
    if s.obs.lowInfo then
      var status := if request.Some? then PendingCapture else Idle;
      s.(transition := s.transition.(result := ResultFor(request, status, LowInformationScreen, false)))
    else if request.None? then
      s.(transition := s.transition.(result := ResultFor(None, Idle, NoTransitionRequest, false)))
    else
      var v := DecideBeforeOcr(cfg, s.obs, request.value, see);
      if v.status == NeedsOcr then
        s.(transition := s.transition.(result := ResultFor(request, NeedsOcr, v.reason, see.visualChanged)))
      else Completed(cfg, s, request.value, v, see.visualChanged)
  }

  /** `complete_action_effect`; None is a RuntimeError of the source. */
  function Complete(cfg: Cfg, s: WorkerState, see: Screening): Option<WorkerState> {
    var request := s.transition.request;
    if request.None? then Some(s)
    else if !s.obs.ocrComplete || s.transition.result.status != NeedsOcr then None
    else
      var visualChanged := s.transition.result.visualChanged;
      var v := DecideAfterOcr(cfg, s.obs, request.value, see, visualChanged);
      Some(Completed(cfg, s, request.value, v, visualChanged))
  }

  // ------------------------------------------------------------------- invariants

  /** Event i has seq i, transitions are ordered, and the open request may still be attached. */
  ghost predicate LogOk(t: Transition) {
    && t.events != []
    && Gapless(t.events)
    && TransitionsOrdered(t.events)
    && (t.request.Some? ==> OpenGroup(t.events, t.request.value.actionSeqs, t.request.value.actionSeq))
  }

  /** The step is the current one of the session. */
  predicate IsStepOf(step: Option<ReplayStep>, session: ReplaySession) {
    step.Some? && step.value.recipeKey == session.recipeKey && step.value.index == session.current
  }

  /** The session waits for exactly the step the open request belongs to. */
  predicate AwaitsRule(session: Option<ReplaySession>, request: TransitionRequest) {
    && session.Some? && session.value.PendingIsCurrent() && session.value.recipeKey == request.recipeKey
    && IsStepOf(request.replay, session.value)
  }

  /** The stored session and blocked rules are what the history says they are. */
  ghost predicate ReplayOk(replay: Replay, request: Option<TransitionRequest>) {
    && LegalHistory(replay.history)
    && replay.session == SessionOf(replay.history)
    && (forall key: NonEmpty :: key in replay.blocked <==> HasFailed(replay.history, key))
    && (request.Some? && request.value.source == Reflex ==> AwaitsRule(replay.session, request.value))
  }

  lemma CompletedKeepsLog(cfg: Cfg, s: WorkerState, request: TransitionRequest, v: Verdict, visualChanged: bool)
    requires LogOk(s.transition) && s.transition.request == Some(request)
    ensures LogOk(Completed(cfg, s, request, v, visualChanged).transition)
  {
    var obs := if v.reuse then ReusedOcr(s.obs, request) else s.obs;
    AttachKeepsOrder(s.transition.events, request.actionSeqs, request.actionSeq,
                     Screen(cfg.urlTemplate(obs.url), obs.role), v.status == Ready);
  }

  /** A reflex transition is blocked exactly when it is not ready. */
  predicate VerdictOk(request: TransitionRequest, v: Verdict) {
    v.block <==> request.source == Reflex && v.status != Ready
  }

  lemma VerdictsBlockFailures(
      cfg: Cfg, obs: Observation, request: TransitionRequest, see: Screening, visualChanged: bool)
    ensures var v := DecideBeforeOcr(cfg, obs, request, see); v.status != NeedsOcr ==> VerdictOk(request, v)
    ensures VerdictOk(request, DecideAfterOcr(cfg, obs, request, see, visualChanged))
  {}

  lemma CompletedKeepsReplay(cfg: Cfg, s: WorkerState, request: TransitionRequest, v: Verdict, visualChanged: bool)
    requires ReplayOk(s.replay, Some(request)) && VerdictOk(request, v)
    ensures ReplayOk(Completed(cfg, s, request, v, visualChanged).replay, None)
  {
    if request.source == Reflex {
      var open := s.replay.session.value;
      var e := Judged(open.recipeKey, open.current, v.status == Ready,
                      OutcomeToPersist(s.replay.session, request, v.status));
      assert LegalNext(s.replay.history, e);
      ExtendLegalHistory(s.replay.history, e);
      SessionOfExtended(s.replay.history, e);
    }
  }

  lemma AttemptKeepsReplay(s: WorkerState, rules: seq<RuleCandidate>)
    requires ReplayOk(s.replay, None)
    ensures ReplayOk(AttemptReplay(s, rules).replay, None)
  {
    match SelectRule(rules, s.replay.session, s.replay.blocked)
    case Some(hit) =>
      var e := Issued(hit.key, hit.index, hit.count);
      assert LegalNext(s.replay.history, e);
      ExtendLegalHistory(s.replay.history, e);
      SessionOfExtended(s.replay.history, e);
    case None =>
      if s.replay.session.Some? {
        var e := GivenUp(s.replay.session.value.recipeKey);
        assert LegalNext(s.replay.history, e);
        ExtendLegalHistory(s.replay.history, e);
        SessionOfExtended(s.replay.history, e);
      } else {
        assert s.replay.history + [] == s.replay.history;
      }
  }

  // -------------------------------------------------------------- main statements

  /**
   A rule's transition is judged ready exactly when it waited for OCR and the
   expected effect holds on the OCR'd capture; a transition of another source
   never touches the session, the blocked rules or the history.
   */
  lemma ReflexReadyIffVerified(cfg: Cfg, s: WorkerState, see: Screening, seeOcr: Screening, ocr: Observation)
    requires !s.obs.lowInfo && s.transition.request.Some?
    requires ocr.ocrComplete
    ensures var request := s.transition.request.value;
      var inspected := Inspect(cfg, s, see);
      var judged := Complete(cfg, inspected.(obs := ocr), seeOcr);
      && inspected.transition.result.status != Ready
      && judged.Some?
      && (request.source == Reflex ==>
            (judged.value.transition.result.status == Ready <==>
               inspected.transition.request.Some? && EffectVerified(cfg, request, ocr, seeOcr.frame)))
      && (request.source == Reflex && s.replay.session.Some? ==>
            |judged.value.replay.history| == |s.replay.history| + 1 &&
            var e := judged.value.replay.history[|s.replay.history|];
            e.Judged? && (e.ready <==> judged.value.transition.result.status == Ready))
      && (request.source != Reflex ==> judged.value.replay == s.replay)
  {}

  /** A reflex session moves to its next step, or closes, only on a ready judgement. */
  lemma SessionMovesOnReady(cfg: Cfg, s: WorkerState, request: TransitionRequest, v: Verdict, visualChanged: bool)
    requires ReplayOk(s.replay, Some(request)) && request.source == Reflex
    ensures var after := Completed(cfg, s, request, v, visualChanged).replay;
      && (v.status != Ready ==> after.session.None?)
      && (v.status == Ready && !s.replay.session.value.IsLastStep() ==>
            after.session == Some(s.replay.session.value.(current := s.replay.session.value.current + 1, pending := None)))
      && (v.status == Ready && s.replay.session.value.IsLastStep() ==> after.session.None?)
      && |after.history| == |s.replay.history| + 1
  {}

  /** The cheap judgement consumes the request exactly when nothing could have happened on screen. */
  lemma JudgedWithoutOcrIff(cfg: Cfg, s: WorkerState, see: Screening)
    requires !s.obs.lowInfo && s.transition.request.Some?
    ensures var request := s.transition.request.value;
      var r := Inspect(cfg, s, see);
      && (r.transition.request.None? <==>
            !see.visualChanged && request.action != TypeInMarker && TypeInMarker !in request.actions &&
            !(request.source == Reflex && EffectVerified(cfg, request, s.obs, see.frame)))
      && (r.transition.request.None? ==> r.transition.result.status == Unknown)
      && (r.transition.request.Some? ==> r.transition.result.status == NeedsOcr && r.replay == s.replay)
      && r.transition.result.action == Some(request.action) && r.transition.result.source == Some(request.source)
  {}

  /**
   After OCR, an action that no rule issued is ready exactly when the screen
   has markers and something changed, and a queued card when its detail page
   is shown as well.
   */
  lemma ReadyAfterOcrIff(cfg: Cfg, s: WorkerState, see: Screening)
    requires s.transition.request.Some? && s.transition.request.value.source != Reflex
    requires s.obs.ocrComplete && s.transition.result.status == NeedsOcr
    ensures Complete(cfg, s, see).Some?
    ensures var request := s.transition.request.value;
      var r := Complete(cfg, s, see).value.transition;
      var moved := request.beforeUrl != "" && s.obs.url != "" && request.beforeUrl != s.obs.url;
      var typed := (request.action == TypeInMarker || TypeInMarker in request.actions) && see.inputConfirmed;
      && r.request.None?
      && r.result.status in {Ready, Unknown}
      && (r.result.status == Ready <==>
            (request.source == CardQueue ==> see.detailContext) && s.obs.markers != {} &&
            (moved || s.transition.result.visualChanged || typed))
      && (r.result.reason == NoScreenChange ==> !moved && !s.transition.result.visualChanged)
  {}

  /**
   A new capture gets OCR data without being read only when its pixels are
   those of the screen the action started from, nothing was typed, and that
   screen, under the same URL, is the last one read; the data are copied.
   */
  lemma ReusedOcrIsOfSameScreen(cfg: Cfg, s: WorkerState, see: Screening)
    requires !s.obs.ocrComplete
    ensures var r := Inspect(cfg, s, see).obs;
      && r.(markers := s.obs.markers, role := s.obs.role, ocrComplete := false, previous := s.obs.previous) == s.obs
      && (r != s.obs ==>
            && s.transition.request.Some? && s.obs.previous.Some?
            && var request, read := s.transition.request.value, s.obs.previous.value;
            && !see.visualChanged && !InputOccurred(request)
            && request.beforeSequence == read.sequence && request.beforeScreenshot == read.screenshot
            && (request.beforeUrl == "" || read.url == "" || request.beforeUrl == read.url)
            && r.ocrComplete && r.markers == read.markers != {} && r.role == read.role
            && r.previous.Some? && r.previous.value.sequence == s.obs.sequence && r.previous.value.markers == r.markers)
  {}
}
