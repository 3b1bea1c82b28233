/**
 Choosing, verifying and recording the steps of stored experience rules
 (agent/recipe/replay.py, agent/recipe/replay_runtime.py,
 shared/schema/experience_rule_schema.py).
 */
module ReplayRuntime {
  import opened Prelude
  import opened ExecutionRecord
  import opened WorkerContracts

  // ------------------------------------------------------------ effect verification

  /** `frame` is the changed-pixel ratio of the two captures, None when one cannot be read. */
  predicate EffectVerified(cfg: Cfg, request: TransitionRequest, obs: Observation, frame: Option<real>) {
    && !request.executionFailed
    && request.replay.Some?
    && var effect := request.replay.value.effect;
    && (effect.urlTemplate == "" || cfg.scopeMatches(effect.urlTemplate, obs.url))
    && (effect.role == NoRole || obs.role == NoRole || effect.role == obs.role)
    && match effect.kind
       case UrlChange =>
         obs.url != "" && request.beforeUrl != "" && obs.url != request.beforeUrl && effect.urlTemplate != ""
       case PageChange =>
         obs.role != NoRole && request.beforeRole != NoRole && obs.role != request.beforeRole
       case _ =>
         request.beforeScreenshot != "" && obs.screenshot != "" && frame.Some? &&
         frame.value >= if cfg.minEffectRatio > 0.0 then cfg.minEffectRatio else 0.0
  }

  // -------------------------------------------------------------- session, blocking

  function SessionAfterTransition(session: Option<ReplaySession>, source: Source, status: TransitionStatus)
    : Option<ReplaySession>
  {
    if session.None? || source != Reflex then session
    else if status == Ready then session.value.Advance()
    else None
  }

  function Block(blocked: seq<NonEmpty>, key: string): seq<NonEmpty> {
    if key == "" || key in blocked then blocked else blocked + [key]
  }

  function BlockedAfter(blocked: seq<NonEmpty>, request: TransitionRequest, shouldBlock: bool): seq<NonEmpty> {
    if shouldBlock then Block(blocked, request.recipeKey) else blocked
  }

  /** The replay result that is written to the rule store, if any. */
  function OutcomeToPersist(session: Option<ReplaySession>, request: TransitionRequest, status: TransitionStatus)
    : Option<bool>
  {
    if request.source != Reflex || session.None? || !session.value.PendingIsCurrent() then None
    else if status == Ready && !session.value.IsLastStep() then None
    else Some(status == Ready)
  }

  /** Every judged reflex transition of an open session is entered in the history. */
  function JudgedHistory(replay: Replay, request: TransitionRequest, status: TransitionStatus): seq<ReplayEvent> {
    if request.source != Reflex || replay.session.None? then replay.history
    else replay.history + [
      Judged(replay.session.value.recipeKey, replay.session.value.current, status == Ready,
             OutcomeToPersist(replay.session, request, status))]
  }

  // ---------------------------------------------------------------- rule selection

  /**
   One stored rule as the store returned it: whether its inputs are available,
   whether it was already used on this page, and for each step the request
   metadata and calls it binds to on the current screen, if it binds at all.
   */
  datatype RuleCandidate = RuleCandidate(
    key: NonEmpty, stepCount: nat, inputsMissing: bool, usedOnPage: bool,
    bind: nat -> Option<BoundStep>)

  datatype Binding = Binding(
    effect: ExpectedEffect, beforeRole: Role, actions: seq<ToolName>,
    calls: seq<ToolCall>, addedMarkers: set<int>)

  /** Calls of a bound step pass the request contract: physical, supported, without queue ids. */
  predicate ValidBinding(b: Binding) {
    b.calls != [] && SupportedGroup(b.calls) && forall call | call in b.calls :: IsUiAction(call.name) && call.queueId == 0
  }

  /** The steps of compiled rules bind to such calls (`RuleReplay.CompiledStepsBindValidly`). */
  type BoundStep = b: Binding | ValidBinding(b)
    witness Binding(ExpectedEffect(ScreenChange, "", NoRole), NoRole, [], [PlainCall(Scroll)], {})

  datatype Selection = Selection(key: NonEmpty, index: nat, count: nat, binding: BoundStep)

  function StepIndex(session: Option<ReplaySession>, key: NonEmpty): nat {
    if session.Some? && session.value.recipeKey == key then session.value.current else 0
  }

  predicate Eligible(c: RuleCandidate, session: Option<ReplaySession>, blocked: seq<NonEmpty>) {
    && (session.Some? ==> c.key == session.value.recipeKey)
    && c.key !in blocked
    && (session.None? ==> !c.usedOnPage)
    && !c.inputsMissing
    && StepIndex(session, c.key) < c.stepCount
  }

  /** The first eligible rule whose current step binds to the screen. */
  function SelectRule(candidates: seq<RuleCandidate>, session: Option<ReplaySession>, blocked: seq<NonEmpty>)
    : (r: Option<Selection>)
    ensures r.Some? ==>
      && r.value.key !in blocked
      && r.value.index < r.value.count
      && (session.None? ==> r.value.index == 0)
      && (session.Some? ==> r.value.key == session.value.recipeKey && r.value.index == session.value.current)
    ensures r.None? ==> forall c | c in candidates && Eligible(c, session, blocked) ::
      c.bind(StepIndex(session, c.key)).None?
  {
    if candidates == [] then None
    else
      var c := candidates[0];
      var index := StepIndex(session, c.key);
      if Eligible(c, session, blocked) && c.bind(index).Some?
      then Some(Selection(c.key, index, c.stepCount, c.bind(index).value))
      else SelectRule(candidates[1..], session, blocked)
  }

  /** Candidate k is eligible, its step binds, and no earlier candidate does both. */
  predicate FirstToBind(
      candidates: seq<RuleCandidate>, session: Option<ReplaySession>, blocked: seq<NonEmpty>, k: nat)
    requires k < |candidates|
  {
    && Eligible(candidates[k], session, blocked)
    && candidates[k].bind(StepIndex(session, candidates[k].key)).Some?
    && forall j :: 0 <= j < k && Eligible(candidates[j], session, blocked) ==>
         candidates[j].bind(StepIndex(session, candidates[j].key)).None?
  }

  /** The choice is the first eligible candidate that binds, at its current step. */
  lemma {:induction false} SelectRuleIsFirst(
      candidates: seq<RuleCandidate>, session: Option<ReplaySession>, blocked: seq<NonEmpty>)
    returns (k: nat)
    requires SelectRule(candidates, session, blocked).Some?
    ensures k < |candidates| && FirstToBind(candidates, session, blocked, k)
    ensures var c := candidates[k];
      var index := StepIndex(session, c.key);
      SelectRule(candidates, session, blocked) == Some(Selection(c.key, index, c.stepCount, c.bind(index).value))
  {
    var c := candidates[0];
    if Eligible(c, session, blocked) && c.bind(StepIndex(session, c.key)).Some? {
      k := 0;
    } else {
      k := SelectRuleIsFirst(candidates[1..], session, blocked);
      k := k + 1;
      forall j | 0 <= j < k && Eligible(candidates[j], session, blocked)
        ensures candidates[j].bind(StepIndex(session, candidates[j].key)).None?
      {
        if j > 0 { assert candidates[j] == candidates[1..][j - 1]; }
      }
    }
  }

  /** `attempt_reflex_replay`: a hit issues a step, a miss ends and blocks an open session. */
  function AttemptReplay(s: WorkerState, candidates: seq<RuleCandidate>): WorkerState {
    match SelectRule(candidates, s.replay.session, s.replay.blocked)
    case Some(hit) =>
      var step := ReplayStep(
        hit.key, hit.index, hit.count, hit.binding.effect, hit.binding.beforeRole, hit.binding.actions);
      s.(obs := s.obs.(markers := s.obs.markers + hit.binding.addedMarkers),
         decision := s.decision.(pending := Some(ActionRequest(Reflex, hit.binding.calls, Some(step)))),
         replay := s.replay.(
           trace := ReflexTrace(Some(true), s.obs.sequence, hit.key),
           session := Some(ReplaySession(hit.key, hit.index, Some(hit.index), hit.count)),
           history := s.replay.history + [Issued(hit.key, hit.index, hit.count)]))
    case None =>
      var key := if s.replay.session.Some? then s.replay.session.value.recipeKey else "";
      s.(replay := s.replay.(
        trace := ReflexTrace(Some(false), s.obs.sequence, key),
        session := None,
        blocked := Block(s.replay.blocked, key),
        history := s.replay.history + if s.replay.session.Some? then [GivenUp(s.replay.session.value.recipeKey)] else []))
  }

  // --------------------------------------------------------------- replay histories

  /** The session a history leaves open. */
  function SessionOf(history: seq<ReplayEvent>): Option<ReplaySession> {
    if history == [] then None
    else
      match history[|history| - 1]
      case Issued(key, index, count) => Some(ReplaySession(key, index, Some(index), count))
      case Judged(_, _, ready, _) =>
        var before := SessionOf(history[..|history| - 1]);
        if ready && before.Some? then before.value.Advance() else None
      case GivenUp(_) => None
  }

  /** The entry ends a session without success, which blocks its rule. */
  predicate Fails(e: ReplayEvent, key: NonEmpty) {
    (e.GivenUp? && e.recipeKey == key) || (e.Judged? && !e.ready && e.recipeKey == key)
  }

  ghost predicate HasFailed(history: seq<ReplayEvent>, key: NonEmpty) {
    exists i :: 0 <= i < |history| && Fails(history[i], key)
  }

  /** Entry `e` may follow `history`. */
  ghost predicate LegalNext(history: seq<ReplayEvent>, e: ReplayEvent) {
    var open := SessionOf(history);
    match e
    case Issued(key, index, count) =>
      && index < count
      && !HasFailed(history, key)
      && (open.None? ==> index == 0)
      && (open.Some? ==> key == open.value.recipeKey && index == open.value.current)
    case Judged(key, index, ready, persisted) =>
      && open.Some? && open.value.PendingIsCurrent()
      && key == open.value.recipeKey && index == open.value.current
      && persisted == (if !ready then Some(false) else if open.value.IsLastStep() then Some(true) else None)
    case GivenUp(key) => open.Some? && key == open.value.recipeKey
  }

  ghost predicate LegalHistory(history: seq<ReplayEvent>) {
    history == [] ||
    var n := |history| - 1;
    LegalHistory(history[..n]) && LegalNext(history[..n], history[n])
  }

  lemma ExtendLegalHistory(history: seq<ReplayEvent>, e: ReplayEvent)
    requires LegalHistory(history) && LegalNext(history, e)
    ensures LegalHistory(history + [e])
  {
    assert (history + [e])[..|history|] == history;
  }

  /** Every entry of a legal history was legal when it was entered. */
  lemma {:induction false} LegalPrefix(history: seq<ReplayEvent>, p: nat)
    requires LegalHistory(history) && p < |history|
    ensures LegalHistory(history[..p]) && LegalNext(history[..p], history[p])
    decreases |history|
  {
    var n := |history| - 1;
    if p < n {
      LegalPrefix(history[..n], p);
      assert history[..n][..p] == history[..p];
    }
  }

  lemma SessionOfExtended(history: seq<ReplayEvent>, e: ReplayEvent)
    ensures SessionOf(history + [e]) ==
      match e
      case Issued(key, index, count) => Some(ReplaySession(key, index, Some(index), count))
      case Judged(_, _, ready, _) => if ready && SessionOf(history).Some? then SessionOf(history).value.Advance() else None
      case GivenUp(_) => None
    ensures forall key: NonEmpty :: HasFailed(history + [e], key) <==> HasFailed(history, key) || Fails(e, key)
  {
    var h := history + [e];
    assert h[..|h| - 1] == history;
    forall key: NonEmpty ensures HasFailed(h, key) <==> HasFailed(history, key) || Fails(e, key) {
      if HasFailed(history, key) {
        var i :| 0 <= i < |history| && Fails(history[i], key);
        assert h[i] == history[i];
      }
      if Fails(e, key) { assert h[|history|] == e; }
    }
  }

  /** Between positions a and b nothing but re-issues of one step happened. */
  ghost predicate OnlyReissues(history: seq<ReplayEvent>, a: int, b: int, key: NonEmpty, index: nat) {
    0 <= a <= b <= |history| &&
    forall i :: a <= i < b ==> history[i].Issued? && history[i].recipeKey == key && history[i].index == index
  }

  /** Where an open session reached its current step. */
  ghost function StepStart(history: seq<ReplayEvent>): (at: nat)
    requires SessionOf(history).Some?
    ensures at <= |history|
    decreases |history|
  {
    var n := |history| - 1;
    if history[n].Judged? then n + 1
    else if SessionOf(history[..n]).Some? then StepStart(history[..n])
    else n
  }

  /** An open session past step 0 stands right after the judgement of the step before. */
  lemma {:induction false} StepStartIsJudged(history: seq<ReplayEvent>)
    requires LegalHistory(history) && SessionOf(history).Some? && SessionOf(history).value.current > 0
    ensures StepStart(history) > 0
    ensures var open := SessionOf(history).value;
      history[StepStart(history) - 1] == Judged(open.recipeKey, open.current - 1, true, None)
    decreases |history|
  {
    var n := |history| - 1;
    if history[n].Issued? { StepStartIsJudged(history[..n]); }
  }

  lemma {:induction false} OnlyReissuesSinceStepStart(history: seq<ReplayEvent>, i: nat)
    requires LegalHistory(history) && SessionOf(history).Some? && StepStart(history) <= i < |history|
    ensures history[i].Issued?
    ensures history[i].recipeKey == SessionOf(history).value.recipeKey
    ensures history[i].index == SessionOf(history).value.current
    decreases |history|
  {
    var n := |history| - 1;
    if i < n { OnlyReissuesSinceStepStart(history[..n], i); }
  }

  /**
   Sequential replay: a later step of a rule is issued only after the step
   before it was judged ready, with nothing but re-issues of that later step in
   between.
   */
  lemma StepsAreSequential(history: seq<ReplayEvent>, p: nat) returns (q: nat)
    requires LegalHistory(history) && p < |history|
    requires history[p].Issued? && history[p].index > 0
    ensures q < p
    ensures history[q] == Judged(history[p].recipeKey, history[p].index - 1, true, None)
    ensures OnlyReissues(history, q + 1, p, history[p].recipeKey, history[p].index)
  {
    LegalPrefix(history, p);
    var before := history[..p];
    StepStartIsJudged(before);
    q := StepStart(before) - 1;
    forall i | q < i < p
      ensures history[i].Issued? && history[i].recipeKey == history[p].recipeKey && history[i].index == history[p].index
    {
      OnlyReissuesSinceStepStart(before, i);
    }
  }

  /** A rule that failed once is not issued again in the same run. */
  lemma BlockedRulesStayBlocked(history: seq<ReplayEvent>, p: nat, q: nat)
    requires LegalHistory(history) && p < q < |history|
    requires Fails(history[p], history[p].recipeKey) && history[q].Issued?
    ensures history[q].recipeKey != history[p].recipeKey
  {
    LegalPrefix(history, q);
    assert history[..q][p] == history[p];
  }

  /** The entry wrote a replay result to the rule store. */
  predicate Persists(e: ReplayEvent) { e.Judged? && e.persisted.Some? }

  /** Where an open session was issued for the first time. */
  ghost function SessionStart(history: seq<ReplayEvent>): (start: nat)
    requires SessionOf(history).Some?
    ensures start < |history|
    decreases |history|
  {
    var before := history[..|history| - 1];
    if SessionOf(before).None? then |history| - 1 else SessionStart(before)
  }

  lemma {:induction false} SessionStartIsStepZero(history: seq<ReplayEvent>)
    requires LegalHistory(history) && SessionOf(history).Some?
    ensures var e := history[SessionStart(history)];
      e.Issued? && e.recipeKey == SessionOf(history).value.recipeKey && e.index == 0
    decreases |history|
  {
    var before := history[..|history| - 1];
    if SessionOf(before).Some? { SessionStartIsStepZero(before); }
  }

  lemma {:induction false} NothingPersistedSinceStart(history: seq<ReplayEvent>, i: nat)
    requires LegalHistory(history) && SessionOf(history).Some? && SessionStart(history) <= i < |history|
    ensures !Persists(history[i])
    decreases |history|
  {
    var before := history[..|history| - 1];
    if i < |before| { NothingPersistedSinceStart(before, i); }
  }

  lemma {:induction false} EarlierStepsWereReady(history: seq<ReplayEvent>, j: nat) returns (i: nat)
    requires LegalHistory(history) && SessionOf(history).Some? && j < SessionOf(history).value.current
    ensures SessionStart(history) < i < |history|
    ensures history[i] == Judged(SessionOf(history).value.recipeKey, j, true, None)
    decreases |history|
  {
    var n := |history| - 1;
    var open := SessionOf(history[..n]);
    if j < open.value.current {
      i := EarlierStepsWereReady(history[..n], j);
    } else {
      i := n;
    }
  }

  /**
   A replay result closes the session it belongs to: it is preceded by that
   session's step 0 and by a ready judgement of every earlier step, no other
   result lies in between, and it is a success exactly when the last step was
   judged ready.
   */
  lemma PersistedOnce(history: seq<ReplayEvent>, q: nat) returns (start: nat)
    requires LegalHistory(history) && q < |history| && Persists(history[q])
    ensures start < q
    ensures history[start].Issued? && history[start].index == 0 && history[start].recipeKey == history[q].recipeKey
    ensures forall i :: start <= i < q ==> !Persists(history[i])
    ensures forall j :: 0 <= j < history[q].index ==> JudgedReadyBetween(history, start, q, j)
    ensures history[q].persisted == Some(history[q].ready)
    ensures history[q - 1].Issued? && history[q - 1].index == history[q].index
    ensures history[q].ready ==> history[q - 1].count <= history[q].index + 1
  {
    LegalPrefix(history, q);
    var before := history[..q];
    start := SessionStart(before);
    SessionStartIsStepZero(before);
    forall i | start <= i < q ensures !Persists(history[i]) {
      NothingPersistedSinceStart(before, i);
    }
    forall j | 0 <= j < history[q].index ensures JudgedReadyBetween(history, start, q, j) {
      var i := EarlierStepsWereReady(before, j);
      assert history[i] == before[i];
    }
  }

  ghost predicate JudgedReadyBetween(history: seq<ReplayEvent>, start: nat, q: nat, j: nat)
    requires start < q < |history| && !history[start].GivenUp?
  {
    exists i :: start < i < q && history[i] == Judged(history[start].recipeKey, j, true, None)
  }

  /** Two results of one run are separated by the start of the later session. */
  lemma ResultsAreSeparated(history: seq<ReplayEvent>, p: nat, q: nat) returns (start: nat)
    requires LegalHistory(history) && p < q < |history| && Persists(history[p]) && Persists(history[q])
    ensures p < start < q && history[start].Issued? && history[start].index == 0
  {
    start := PersistedOnce(history, q);
  }
}
