/** What holds in every run of the worker graph, whatever the world answers. */
module WorkerRuns {
  import opened Prelude
  import opened ExecutionRecord
  import opened WorkerContracts
  import opened JobCardQueue
  import opened ReplayRuntime
  import opened WorkerTransition
  import opened WorkerSelection
  import opened WorkerReasoning
  import opened WorkerCycle
  import opened WorkerExecution
  import opened WorkerReview
  import opened WorkerGraph

  /** `run` starts in a fresh worker state and follows the graph. */
  ghost predicate IsRun(cfg: Cfg, run: seq<Config>, worlds: seq<World>) {
    && |run| == |worlds| + 1
    && (exists url, status :: run[0] == Start(url, status))
    && (forall i :: 0 <= i < |worlds| ==> run[i + 1] == Next(cfg, run[i], worlds[i]))
  }

  // ----------------------------------------------------------------- what grows

  /** No event is lost or rewritten; only transitions are attached. */
  ghost predicate LogGrows(a: Log, b: Log) {
    |a| <= |b| && forall i :: 0 <= i < |a| ==> b[i].(transition := None) == a[i].(transition := None)
  }

  ghost predicate HistoryGrows(a: seq<ReplayEvent>, b: seq<ReplayEvent>) { a <= b }

  /** Any number of graph steps as seen from the queue, the log and the replay history. */
  ghost predicate Progress(s: WorkerState, r: WorkerState) {
    && QueueReaches(s.collection.queue, r.collection.queue)
    && LogGrows(s.transition.events, r.transition.events)
    && HistoryGrows(s.replay.history, r.replay.history)
  }

  /** One graph step: each card moves by at most one edge. */
  ghost predicate GraphStep(s: WorkerState, r: WorkerState) {
    && QueueStep(s.collection.queue, r.collection.queue)
    && LogGrows(s.transition.events, r.transition.events)
    && HistoryGrows(s.replay.history, r.replay.history)
  }

  lemma StepIsProgress(s: WorkerState, r: WorkerState)
    requires GraphStep(s, r)
    ensures Progress(s, r)
  {
    QueueStepReaches(s.collection.queue, r.collection.queue);
  }

  lemma CompletedGrows(cfg: Cfg, s: WorkerState, request: TransitionRequest, v: Verdict, visualChanged: bool)
    ensures var r := Completed(cfg, s, request, v, visualChanged);
      LogGrows(s.transition.events, r.transition.events) && HistoryGrows(s.replay.history, r.replay.history)
  {}

  lemma InspectGrows(cfg: Cfg, s: WorkerState, see: Screening)
    ensures var r := Inspect(cfg, s, see);
      LogGrows(s.transition.events, r.transition.events) && HistoryGrows(s.replay.history, r.replay.history)
  {
    if s.transition.request.Some? {
      CompletedGrows(cfg, s, s.transition.request.value,
                     DecideBeforeOcr(cfg, s.obs, s.transition.request.value, see), see.visualChanged);
    }
  }

  lemma RunOcrGrows(cfg: Cfg, s: WorkerState, result: OcrResult)
    requires RunOcr(cfg, s, result).Some?
    ensures var r := RunOcr(cfg, s, result).value;
      LogGrows(s.transition.events, r.transition.events) && HistoryGrows(s.replay.history, r.replay.history)
  {
    var read := Ocr(s, result).value;
    if read.transition.request.Some? {
      var changed := read.transition.result.visualChanged;
      CompletedGrows(cfg, read, read.transition.request.value,
                     DecideAfterOcr(cfg, read.obs, read.transition.request.value, result.see, changed), changed);
    }
  }

  lemma TryReflexGrows(cfg: Cfg, s: WorkerState, rules: seq<RuleCandidate>)
    ensures var r := TryReflex(cfg, s, rules);
      r.transition.events == s.transition.events && HistoryGrows(s.replay.history, r.replay.history)
  {}

  lemma SelectGrows(cfg: Cfg, s: WorkerState, found: Lookup)
    ensures var r := Select(cfg, s, found);
      r.transition.events == s.transition.events && r.replay == s.replay
  {}

  lemma PrepareGrows(cfg: Cfg, s: WorkerState, a: Answers)
    requires Prepare(cfg, s, a).Some?
    ensures var r := Prepare(cfg, s, a).value;
      LogGrows(s.transition.events, r.transition.events) && HistoryGrows(s.replay.history, r.replay.history)
  {
    if !ObservationReady(s) {
      TryReflexGrows(cfg, s, a.rulesBeforeOcr);
      var tried :=
        if s.transition.result.status in {NeedsOcr, Unknown} then s else TryReflex(cfg, s, a.rulesBeforeOcr);
      if s.transition.result.status in {NeedsOcr, Unknown} || !HasReflexAction(tried) {
        RunOcrGrows(cfg, tried, a.ocr);
        SelectGrows(cfg, RunOcr(cfg, tried, a.ocr).value, a.second);
      }
    }
  }

  lemma DecideGrows(cfg: Cfg, s: WorkerState, a: Answers)
    requires Decide(cfg, s, a).Some?
    ensures var r := Decide(cfg, s, a).value;
      LogGrows(s.transition.events, r.transition.events) && HistoryGrows(s.replay.history, r.replay.history)
  {
    if !s.lifecycle.finished && s.decision.pending.None? && !ReviewFollowUpDue(s) {
      SelectGrows(cfg, s, a.first);
      var selected := Select(cfg, s, a.first);
      if !Resolved(selected) {
        PrepareGrows(cfg, selected, a);
        TryReflexGrows(cfg, Prepare(cfg, selected, a).value, a.rulesAfterOcr);
      }
    }
  }

  lemma ExecuteGrows(cfg: Cfg, s: WorkerState, env: ExecutionAnswers)
    requires Inv(cfg, Config(AtExecution, s))
    ensures var r := Execute(cfg, s, env);
      s.transition.events <= r.transition.events && r.replay == s.replay
  {
    var c := Ctx(s, []);
    var req := s.decision.pending.value;
    assert s.transition.events + [] == s.transition.events;
    CallsKeepCtx(cfg, c, req, env, 0);
  }

  // ------------------------------------------------------------------- main results

  lemma ObservationStep(cfg: Cfg, s: WorkerState, w: World)
    requires Inv(cfg, Config(AtObservation, s))
    ensures var next := Next(cfg, Config(AtObservation, s), w); Inv(cfg, next) && GraphStep(s, next.s)
  {
    ObserveKeepsInv(cfg, s, w.sight);
    InspectGrows(cfg, CaptureScreen(s, w.sight), w.sight.see);
  }

  lemma DecisionStep(cfg: Cfg, s: WorkerState, w: World)
    requires Inv(cfg, Config(AtDecision, s))
    ensures var next := Next(cfg, Config(AtDecision, s), w); Inv(cfg, next) && GraphStep(s, next.s)
  {
    DecideKeepsInv(cfg, s, w.answers);
    DecideGrows(cfg, s, w.answers);
  }

  lemma ExecutionStep(cfg: Cfg, s: WorkerState, w: World)
    requires Inv(cfg, Config(AtExecution, s))
    ensures var next := Next(cfg, Config(AtExecution, s), w); Inv(cfg, next) && GraphStep(s, next.s)
  {
    ExecuteKeepsInv(cfg, s, w.execution);
    ExecuteGrows(cfg, s, w.execution);
  }

  lemma ReviewStep(cfg: Cfg, s: WorkerState, w: World)
    requires Inv(cfg, Config(AtReview, s))
    ensures var next := Next(cfg, Config(AtReview, s), w); Inv(cfg, next) && GraphStep(s, next.s)
  {
    ReviewKeepsInv(cfg, s, w.review);
    ReviewLeavesLog(cfg, s, w.review);
  }

  lemma ReviewLeavesLog(cfg: Cfg, s: WorkerState, review: Review)
    ensures var r := ReviewDraft(cfg, s, review);
      r.transition == s.transition && r.replay == s.replay
      && LogGrows(s.transition.events, r.transition.events) && HistoryGrows(s.replay.history, r.replay.history)
  {}

  /** One graph step from a configuration that satisfies the invariant. */
  lemma NextKeepsInv(cfg: Cfg, c: Config, w: World)
    requires Inv(cfg, c)
    ensures Inv(cfg, Next(cfg, c, w)) && GraphStep(c.s, Next(cfg, c, w).s)
  {
    assert c == Config(c.node, c.s);
    match c.node
    case AtObservation => ObservationStep(cfg, c.s, w);
    case AtDecision => DecisionStep(cfg, c.s, w);
    case AtExecution => ExecutionStep(cfg, c.s, w);
    case AtReview => ReviewStep(cfg, c.s, w);
    case AtEnd =>
  }

  lemma {:induction false} RunKeepsInv(cfg: Cfg, run: seq<Config>, worlds: seq<World>, i: nat)
    requires IsRun(cfg, run, worlds) && i < |run|
    ensures Inv(cfg, run[i])
  {
    if i == 0 {
      var url, status :| run[0] == Start(url, status);
      StartOk(cfg, url, status);
    } else {
      RunKeepsInv(cfg, run, worlds, i - 1);
      NextKeepsInv(cfg, run[i - 1], worlds[i - 1]);
    }
  }

  /**
   No run reaches an error the nodes or routers raise, and the screen is read
   again at most up to the configured limit while it shows nothing.
   */
  lemma RunsNeverCrash(cfg: Cfg, run: seq<Config>, worlds: seq<World>, i: nat)
    requires IsRun(cfg, run, worlds) && i < |run|
    ensures run[i].node != Crashed
    ensures run[i].s.obs.lowCount <= cfg.maxLowCycles
    ensures run[i].s.decision.stageCalls <= cfg.callLimit
  {
    RunKeepsInv(cfg, run, worlds, i);
  }

  lemma RunStep(cfg: Cfg, run: seq<Config>, worlds: seq<World>, i: nat)
    requires IsRun(cfg, run, worlds) && i + 1 < |run|
    ensures GraphStep(run[i].s, run[i + 1].s) && Progress(run[i].s, run[i + 1].s)
  {
    RunKeepsInv(cfg, run, worlds, i);
    NextKeepsInv(cfg, run[i], worlds[i]);
    StepIsProgress(run[i].s, run[i + 1].s);
  }

  lemma {:induction false} ProgressChains(states: seq<Config>, i: nat, j: nat)
    requires i <= j < |states|
    requires forall k :: 0 <= k < |states| - 1 ==> Progress(states[k].s, states[k + 1].s)
    ensures Progress(states[i].s, states[j].s)
  {
    if i < j {
      ProgressChains(states, i, j - 1);
      assert Progress(states[j - 1].s, states[j - 1 + 1].s);
      ProgressTransitive(states[i].s, states[j - 1].s, states[j].s);
    }
  }

  lemma ProgressAlongRun(cfg: Cfg, run: seq<Config>, worlds: seq<World>, i: nat, j: nat)
    requires IsRun(cfg, run, worlds) && i <= j < |run|
    ensures Progress(run[i].s, run[j].s)
  {
    forall k | 0 <= k < |run| - 1 ensures Progress(run[k].s, run[k + 1].s) {
      RunStep(cfg, run, worlds, k);
    }
    ProgressChains(run, i, j);
  }

  lemma ProgressTransitive(a: WorkerState, b: WorkerState, c: WorkerState)
    requires Progress(a, b) && Progress(b, c)
    ensures Progress(a, c)
  {
    forall i | 0 <= i < |a.collection.queue| ensures CardReaches(a.collection.queue[i], c.collection.queue[i]) {
      assert CardReaches(a.collection.queue[i], b.collection.queue[i]);
      assert CardReaches(b.collection.queue[i], c.collection.queue[i]);
    }
    forall i | 0 <= i < |a.transition.events|
      ensures c.transition.events[i].(transition := None) == a.transition.events[i].(transition := None)
    {
      assert b.transition.events[i].(transition := None) == a.transition.events[i].(transition := None);
    }
  }

  /**
   The queue in every reachable state: ids `card-1 .. card-n`, at most one
   active card, no card twice.  One step moves each card by at most one of the
   edges pending to active or skipped, active to done, skipped or rejected; over
   any number of steps no card is lost, renamed or moved backwards, so the
   resolved count never falls.
   */
  lemma QueueInvariants(cfg: Cfg, run: seq<Config>, worlds: seq<World>, i: nat, j: nat)
    requires IsRun(cfg, run, worlds) && i <= j < |run|
    ensures WellKept(run[i].s.collection.queue)
    ensures j == i + 1 ==> QueueStep(run[i].s.collection.queue, run[j].s.collection.queue)
    ensures QueueReaches(run[i].s.collection.queue, run[j].s.collection.queue)
    ensures ResolvedCount(run[i].s.collection.queue) <= ResolvedCount(run[j].s.collection.queue)
  {
    RunKeepsInv(cfg, run, worlds, i);
    if j == i + 1 { RunStep(cfg, run, worlds, i); }
    ProgressAlongRun(cfg, run, worlds, i, j);
    ResolvedCountMonotone(run[i].s.collection.queue, run[j].s.collection.queue);
  }

  /** Event k has sequence number k from the start page on, and the log is append-only. */
  lemma LogInvariants(cfg: Cfg, run: seq<Config>, worlds: seq<World>, i: nat, j: nat)
    requires IsRun(cfg, run, worlds) && i <= j < |run|
    ensures run[i].s.transition.events != [] && Gapless(run[i].s.transition.events)
    ensures TransitionsOrdered(run[i].s.transition.events)
    ensures LogGrows(run[i].s.transition.events, run[j].s.transition.events)
  {
    RunKeepsInv(cfg, run, worlds, i);
    ProgressAlongRun(cfg, run, worlds, i, j);
  }

  /** A finished run means what its completion reason says. */
  lemma CompletionMeaning(cfg: Cfg, run: seq<Config>, worlds: seq<World>, i: nat)
    requires IsRun(cfg, run, worlds) && i < |run|
    ensures var s := run[i].s;
      && (s.lifecycle.finished <==> s.lifecycle.reason != NotCompleted)
      && (s.lifecycle.reason == TargetReached ==>
            && cfg.intent.target > 0
            && DistinctCaptures(cfg, s.collection.captures)
            && (|s.collection.captures| >= cfg.intent.target || ResolvedCount(s.collection.queue) >= cfg.intent.target))
      && (s.lifecycle.reason == VisibleScopeCompleted ==>
            cfg.intent.target == 0 && s.collection.queue != [] && !Unresolved(s.collection.queue))
  {
    RunKeepsInv(cfg, run, worlds, i);
  }

  /** The session and the blocked rules are what the legal history says. */
  lemma ReplayHistoryIsLegal(cfg: Cfg, run: seq<Config>, worlds: seq<World>, i: nat)
    requires IsRun(cfg, run, worlds) && i < |run|
    ensures var replay := run[i].s.replay;
      && LegalHistory(replay.history)
      && replay.session == SessionOf(replay.history)
      && (forall key: NonEmpty :: key in replay.blocked <==> HasFailed(replay.history, key))
  {
    RunKeepsInv(cfg, run, worlds, i);
  }

  lemma {:induction false} OpenSessionHasNotFailed(history: seq<ReplayEvent>)
    requires LegalHistory(history) && SessionOf(history).Some?
    ensures !HasFailed(history, SessionOf(history).value.recipeKey)
    decreases |history|
  {
    var n := |history| - 1;
    var before := history[..n];
    assert history == before + [history[n]];
    SessionOfExtended(before, history[n]);
    if history[n].Judged? { OpenSessionHasNotFailed(before); }
  }

  /** The blocked set only grows, and a rule step sent to execution is never of a blocked rule. */
  lemma BlockedRulesAreNotReplayed(cfg: Cfg, run: seq<Config>, worlds: seq<World>, i: nat, j: nat)
    requires IsRun(cfg, run, worlds) && i <= j < |run|
    ensures forall key: NonEmpty :: key in run[i].s.replay.blocked ==> key in run[j].s.replay.blocked
    ensures run[j].node == AtExecution && HasReflexAction(run[j].s) ==>
      && run[j].s.decision.pending.value.replay.Some?
      && run[j].s.decision.pending.value.replay.value.recipeKey !in run[j].s.replay.blocked
  {
    RunKeepsInv(cfg, run, worlds, i);
    RunKeepsInv(cfg, run, worlds, j);
    ProgressAlongRun(cfg, run, worlds, i, j);
    forall key: NonEmpty | key in run[i].s.replay.blocked ensures key in run[j].s.replay.blocked {
      var k :| 0 <= k < |run[i].s.replay.history| && Fails(run[i].s.replay.history[k], key);
      assert Fails(run[j].s.replay.history[k], key);
    }
    if run[j].node == AtExecution && HasReflexAction(run[j].s) {
      OpenSessionHasNotFailed(run[j].s.replay.history);
    }
  }

  /** A rule step sent to execution is the newest entry of the history. */
  lemma ReflexActionIsIssued(cfg: Cfg, run: seq<Config>, worlds: seq<World>, j: nat)
    requires IsRun(cfg, run, worlds) && j < |run| && run[j].node == AtExecution && HasReflexAction(run[j].s)
    ensures var history := run[j].s.replay.history;
      var step := run[j].s.decision.pending.value.replay;
      && LegalHistory(history)
      && history != [] && step.Some?
      && history[|history| - 1].Issued?
      && history[|history| - 1].recipeKey == step.value.recipeKey
      && history[|history| - 1].index == step.value.index
  {
    RunKeepsInv(cfg, run, worlds, j);
  }

  /**
   In every run, step n > 0 of a rule goes to execution only after step n - 1
   of the same rule was judged ready, with nothing but re-issues of step n in
   between.
   */
  lemma ReplayIsSequential(cfg: Cfg, run: seq<Config>, worlds: seq<World>, j: nat) returns (q: nat)
    requires IsRun(cfg, run, worlds) && j < |run| && run[j].node == AtExecution && HasReflexAction(run[j].s)
    requires run[j].s.decision.pending.value.replay.Some? && run[j].s.decision.pending.value.replay.value.index > 0
    ensures var history := run[j].s.replay.history;
      var step := run[j].s.decision.pending.value.replay.value;
      && q < |history|
      && history[q] == Judged(step.recipeKey, step.index - 1, true, None)
      && OnlyReissues(history, q + 1, |history|, step.recipeKey, step.index)
  {
    ReflexActionIsIssued(cfg, run, worlds, j);
    q := StepsAreSequential(run[j].s.replay.history, |run[j].s.replay.history| - 1);
  }

  /** Between two replay results written in one run, a new session starts at step 0. */
  lemma OneOutcomePerSession(cfg: Cfg, run: seq<Config>, worlds: seq<World>, j: nat, p: nat, q: nat)
    returns (start: nat)
    requires IsRun(cfg, run, worlds) && j < |run| && p < q < |run[j].s.replay.history|
    requires Persists(run[j].s.replay.history[p]) && Persists(run[j].s.replay.history[q])
    ensures p < start < q
    ensures run[j].s.replay.history[start].Issued? && run[j].s.replay.history[start].index == 0
  {
    ReplayHistoryIsLegal(cfg, run, worlds, j);
    start := ResultsAreSeparated(run[j].s.replay.history, p, q);
  }

  // ------------------------------------------------------- ready means verified

  /** The new entries from position n on contain no ready judgement. */
  ghost predicate NoReadySince(history: seq<ReplayEvent>, n: nat) {
    forall k :: n <= k < |history| ==> !(history[k].Judged? && history[k].ready)
  }

  /** The open rule request of `s` has its effect verified on the screen that OCR reads. */
  ghost predicate VerifiedOnScreen(cfg: Cfg, s: WorkerState, read: OcrResult) {
    && s.transition.request.Some? && s.transition.request.value.source == Reflex
    && Ocr(s, read).Some?
    && Ocr(s, read).value.obs.ocrComplete
    && EffectVerified(cfg, s.transition.request.value, Ocr(s, read).value.obs, read.see.frame)
  }

  /** Every ready judgement entered from position n on is of this step. */
  ghost predicate ReadyOnlyOf(history: seq<ReplayEvent>, n: nat, step: ReplayStep) {
    forall k :: n <= k < |history| && history[k].Judged? && history[k].ready ==>
      history[k].recipeKey == step.recipeKey && history[k].index == step.index
  }

  /** No ready judgement is entered, or one of the step whose effect OCR verified. */
  ghost predicate ReadyIsVerified(cfg: Cfg, s: WorkerState, read: OcrResult, history: seq<ReplayEvent>) {
    || NoReadySince(history, |s.replay.history|)
    || (VerifiedOnScreen(cfg, s, read) &&
        ReadyOnlyOf(history, |s.replay.history|, s.transition.request.value.replay.value))
  }

  lemma InspectIsNeverReady(cfg: Cfg, s: WorkerState, see: Screening)
    ensures NoReadySince(Inspect(cfg, s, see).replay.history, |s.replay.history|)
  {}

  lemma TryReflexIsNeverReady(cfg: Cfg, s: WorkerState, rules: seq<RuleCandidate>)
    ensures NoReadySince(TryReflex(cfg, s, rules).replay.history, |s.replay.history|)
  {}

  lemma RunOcrReadyIsVerified(cfg: Cfg, s: WorkerState, read: OcrResult)
    requires RunOcr(cfg, s, read).Some? && ReplayOk(s.replay, s.transition.request)
    ensures ReadyIsVerified(cfg, s, read, RunOcr(cfg, s, read).value.replay.history)
  {}

  lemma PrepareReadyIsVerified(cfg: Cfg, s: WorkerState, a: Answers)
    requires Deciding(cfg, s) && !s.obs.lowInfo && Prepare(cfg, s, a).Some?
    ensures ReadyIsVerified(cfg, s, a.ocr, Prepare(cfg, s, a).value.replay.history)
  {
    if !ObservationReady(s) {
      TryReflexIsNeverReady(cfg, s, a.rulesBeforeOcr);
      TryReflexGrows(cfg, s, a.rulesBeforeOcr);
      var settled := s.transition.result.status !in {NeedsOcr, Unknown};
      var tried := if settled then TryReflex(cfg, s, a.rulesBeforeOcr) else s;
      if !settled || !HasReflexAction(tried) {
        SelectGrows(cfg, RunOcr(cfg, tried, a.ocr).value, a.second);
        if s.transition.request.None? {
          UnrequestedIsNeverReady(cfg, tried, a.ocr);
        } else {
          RunOcrReadyIsVerified(cfg, s, a.ocr);
        }
      }
    }
  }

  lemma UnrequestedIsNeverReady(cfg: Cfg, s: WorkerState, read: OcrResult)
    requires s.transition.request.None? && RunOcr(cfg, s, read).Some?
    ensures RunOcr(cfg, s, read).value.replay == s.replay
  {}

  lemma SelectKeepsRequest(cfg: Cfg, s: WorkerState, found: Lookup)
    ensures var r := Select(cfg, s, found);
      (r.transition.request == s.transition.request && r.obs == s.obs) || r.transition.request.None?
  {}

  lemma DeliberateIsNeverReady(cfg: Cfg, s: WorkerState, a: Answers)
    ensures var history := Deliberate(cfg, s, a).replay.history;
      s.replay.history <= history && NoReadySince(history, |s.replay.history|)
  {}

  /** What was verified before the selection of a policy is verified of the state it selected from. */
  lemma SelectionKeepsVerified(
      cfg: Cfg, s: WorkerState, found: Lookup, read: OcrResult, before: seq<ReplayEvent>, after: seq<ReplayEvent>)
    requires ReadyIsVerified(cfg, Select(cfg, s, found), read, before)
    requires before <= after && NoReadySince(after, |before|) && s.replay.history <= before
    ensures ReadyIsVerified(cfg, s, read, after)
  {
    SelectGrows(cfg, s, found);
    SelectKeepsRequest(cfg, s, found);
    if NoReadySince(before, |s.replay.history|) {
      assert NoReadySince(after, |s.replay.history|);
    }
  }

  lemma DecideReadyIsVerified(cfg: Cfg, s: WorkerState, a: Answers)
    requires Inv(cfg, Config(AtDecision, s)) && Decide(cfg, s, a).Some?
    ensures ReadyIsVerified(cfg, s, a.ocr, Decide(cfg, s, a).value.replay.history)
  {
    if !ReviewFollowUpDue(s) {
      SelectGrows(cfg, s, a.first);
      SelectKeeps(cfg, s, a.first);
      var selected := Select(cfg, s, a.first);
      if !Resolved(selected) {
        PrepareReadyIsVerified(cfg, selected, a);
        PrepareGrows(cfg, selected, a);
        var ready := Prepare(cfg, selected, a).value;
        DeliberateIsNeverReady(cfg, ready, a);
        SelectionKeepsVerified(cfg, s, a.first, a.ocr, ready.replay.history, Decide(cfg, s, a).value.replay.history);
      }
    }
  }

  /** A step that enters a ready judgement is a decision whose OCR verified the rule's effect. */
  lemma ReadyStepIsVerified(cfg: Cfg, c: Config, w: World)
    requires Inv(cfg, c)
    ensures var history := Next(cfg, c, w).s.replay.history;
      || NoReadySince(history, |c.s.replay.history|)
      || (c.node == AtDecision && ReadyIsVerified(cfg, c.s, w.answers.ocr, history))
  {
    match c.node
    case AtObservation =>
      InspectIsNeverReady(cfg, CaptureScreen(c.s, w.sight), w.sight.see);
    case AtDecision =>
      assert c == Config(AtDecision, c.s);
      DecideKeepsInv(cfg, c.s, w.answers);
      DecideReadyIsVerified(cfg, c.s, w.answers);
    case AtExecution =>
      assert c == Config(AtExecution, c.s);
      ExecuteGrows(cfg, c.s, w.execution);
    case AtReview =>
      ReviewLeavesLog(cfg, c.s, w.review);
    case _ =>
  }

  lemma RunStartsEmpty(cfg: Cfg, run: seq<Config>, worlds: seq<World>)
    requires IsRun(cfg, run, worlds)
    ensures run[0].s.replay.history == []
  {
    var url, status :| run[0] == Start(url, status);
  }

  /** What one graph step may enter into the history. */
  ghost predicate EntersOnlyVerified(cfg: Cfg, c: Config, w: World, next: Config) {
    && HistoryGrows(c.s.replay.history, next.s.replay.history)
    && (|| NoReadySince(next.s.replay.history, |c.s.replay.history|)
        || (c.node == AtDecision && ReadyIsVerified(cfg, c.s, w.answers.ocr, next.s.replay.history)))
  }

  lemma RunEntersOnlyVerified(cfg: Cfg, run: seq<Config>, worlds: seq<World>, i: nat)
    requires IsRun(cfg, run, worlds) && i < |worlds|
    ensures EntersOnlyVerified(cfg, run[i], worlds[i], run[i + 1])
  {
    RunKeepsInv(cfg, run, worlds, i);
    RunStep(cfg, run, worlds, i);
    ReadyStepIsVerified(cfg, run[i], worlds[i]);
  }

  /** The entry judges the step of the open request. */
  predicate IsOpenStep(s: WorkerState, e: ReplayEvent) {
    && s.transition.request.Some? && s.transition.request.value.replay.Some? && e.Judged?
    && e.recipeKey == s.transition.request.value.replay.value.recipeKey
    && e.index == s.transition.request.value.replay.value.index
  }

  lemma {:induction false} ReadyEntryOrigin(cfg: Cfg, states: seq<Config>, worlds: seq<World>, i: nat, k: nat)
    returns (j: nat)
    requires |states| == |worlds| + 1 && states[0].s.replay.history == []
    requires forall n :: 0 <= n < |worlds| ==> EntersOnlyVerified(cfg, states[n], worlds[n], states[n + 1])
    requires i < |states| && k < |states[i].s.replay.history|
    requires states[i].s.replay.history[k].Judged? && states[i].s.replay.history[k].ready
    ensures j < i && |states[j].s.replay.history| <= k < |states[j + 1].s.replay.history|
    ensures states[j].node == AtDecision && VerifiedOnScreen(cfg, states[j].s, worlds[j].answers.ocr)
    ensures IsOpenStep(states[j].s, states[i].s.replay.history[k])
  {
    assert i > 0;
    assert EntersOnlyVerified(cfg, states[i - 1], worlds[i - 1], states[i - 1 + 1]);
    if k < |states[i - 1].s.replay.history| {
      j := ReadyEntryOrigin(cfg, states, worlds, i - 1, k);
    } else {
      j := i - 1;
    }
  }

  /**
   Every ready judgement in the history of a run was entered by one decision:
   the open request was for the judged step of the judged rule, and the capture
   that OCR read showed that step's expected effect.
   */
  lemma ReadyJudgementsWereVerified(cfg: Cfg, run: seq<Config>, worlds: seq<World>, i: nat, k: nat)
    returns (j: nat)
    requires IsRun(cfg, run, worlds) && i < |run| && k < |run[i].s.replay.history|
    requires run[i].s.replay.history[k].Judged? && run[i].s.replay.history[k].ready
    ensures j < i && |run[j].s.replay.history| <= k < |run[j + 1].s.replay.history|
    ensures run[j].node == AtDecision && VerifiedOnScreen(cfg, run[j].s, worlds[j].answers.ocr)
    ensures IsOpenStep(run[j].s, run[i].s.replay.history[k])
  {
    RunStartsEmpty(cfg, run, worlds);
    forall n | 0 <= n < |worlds| ensures EntersOnlyVerified(cfg, run[n], worlds[n], run[n + 1]) {
      RunEntersOnlyVerified(cfg, run, worlds, n);
    }
    j := ReadyEntryOrigin(cfg, run, worlds, i, k);
  }
}
