/**
 State, action requests and settings of the vision worker
 (agent/runtime/worker_contracts.py, agent/runtime/worker_actions.py,
 agent/runtime/worker_state.py, shared/schema/collection_intent.py).

 An observation id is `observation:n`; the model keeps n, and 0 for a missing id.
 Markers are represented by their ids.
 */
module WorkerContracts {
  import opened Prelude
  import opened ExecutionRecord
  import JobCardQueue

  type NonEmpty = s: string | s != "" witness "x"

  // -------------------------------------------------------------- action requests

  predicate IsUiAction(name: ToolName) {
    name !in {ReviewJobDetail, SetJobCardQueue, FinishTask}
  }

  /** `queueId` is call metadata, 0 when absent; `key` is the normalised key of a key press. */
  datatype ToolCall = ToolCall(name: ToolName, key: string, cards: seq<JobCardQueue.RawCard>, queueId: nat)

  function PlainCall(name: ToolName): ToolCall { ToolCall(name, "", [], 0) }

  datatype Source =
    | Llm | Reflex | CardQueue | ResultsNavigation | ReasoningPolicy | ScreenPolicy | Autonomous

  datatype EffectKind = UrlChange | PageChange | ScreenChange | TargetRegionChange

  datatype ExpectedEffect = ExpectedEffect(kind: EffectKind, urlTemplate: string, role: Role)

  /** Metadata of a request built from step `index` of an experience rule. */
  datatype ReplayStep = ReplayStep(
    recipeKey: NonEmpty, index: nat, count: nat,
    effect: ExpectedEffect, beforeRole: Role, actions: seq<ToolName>)

  datatype ActionRequest = ActionRequest(source: Source, calls: seq<ToolCall>, replay: Option<ReplayStep>)

  /** Several calls are allowed only as an input followed by its submission. */
  predicate SupportedGroup(calls: seq<ToolCall>) {
    || |calls| <= 1
    || (|calls| == 2 && calls[0].name == TypeInMarker &&
        (calls[1].name == ClickMarker || (calls[1].name == PressKey && calls[1].key in {"enter", "return"})))
  }

  // --------------------------------------------------------------------- settings

  datatype Intent = Intent(mode: JobCardQueue.CountMode, target: nat)

  /** The count mode always follows the target count. */
  function AlignCountMode(mode: JobCardQueue.CountMode, target: nat): (intent: Intent)
    ensures Aligned(intent) && intent.target == target
    ensures target == 0 ==> intent.mode == JobCardQueue.VisibleAll
  {
    if target > 0 then Intent(JobCardQueue.Explicit, target)
    else if mode in {JobCardQueue.Unspecified, JobCardQueue.Explicit} then Intent(JobCardQueue.VisibleAll, 0)
    else Intent(mode, 0)
  }

  predicate Aligned(intent: Intent) {
    && (intent.mode == JobCardQueue.Explicit <==> intent.target > 0)
    && (intent.mode == JobCardQueue.VisibleAll <==> intent.target == 0)
  }

  type AlignedIntent = i: Intent | Aligned(i) witness Intent(JobCardQueue.VisibleAll, 0)

  type Positive = n: nat | n > 0 witness 1

  /** One run's fixed request, its limits, and the URL helpers it relies on. */
  datatype Cfg = Cfg(
    intent: AlignedIntent,
    maxLowCycles: Positive,
    callLimit: Positive,
    reflexEnabled: bool,
    minEffectRatio: real,
    isDetailUrl: string -> bool,
    canonicalUrl: string -> string,
    captureUrl: string -> string,
    withoutFragment: string -> string,
    urlTemplate: string -> string,
    scopeMatches: (string, string) -> bool)

  // ------------------------------------------------------------------------ state

  datatype PreviousObservation = PreviousObservation(
    sequence: nat, screenshot: string, url: string, markers: set<int>, role: Role)

  datatype Observation = Observation(
    sequence: nat, screenshot: string, ocrComplete: bool,
    lowInfo: bool, lowCount: nat,
    url: string, urlStale: bool, role: Role, markers: set<int>,
    previous: Option<PreviousObservation>)

  datatype Stage = Navigation | Results | OpeningDetail | Detail | Finished

  datatype Decision = Decision(pending: Option<ActionRequest>, stage: Stage, stageCalls: nat)

  datatype TransitionStatus = Idle | WaitingCapture | PendingCapture | NeedsOcr | Ready | Unknown

  datatype Reason =
    | NoReason | NoTransitionRequest | LowInformationScreen | RuleEffectOcrRequired
    | OcrRequired | InputOcrRequired | NoScreenChange | ReflexNoScreenChange
    | CardDetailNotReached | PixelsMatched | UrlMatched | InputTextMatched
    | ChangeUnverified | ExistingJobDetail | RuleEffectJudged

  datatype TransitionRequest = TransitionRequest(
    actionSeq: nat, actionSeqs: seq<nat>, action: ToolName,
    beforeSequence: nat, source: Source, recipeKey: string,
    replay: Option<ReplayStep>, actions: seq<ToolName>,
    beforeUrl: string, beforeRole: Role, beforeScreenshot: string,
    executionFailed: bool)

  datatype TransitionResult = TransitionResult(
    status: TransitionStatus, action: Option<ToolName>, source: Option<Source>,
    reason: Reason, visualChanged: bool)

  datatype Transition = Transition(
    events: Log, errorCount: nat,
    request: Option<TransitionRequest>, result: TransitionResult)

  datatype ReplaySession = ReplaySession(recipeKey: NonEmpty, current: nat, pending: Option<nat>, count: nat)
  {
    predicate PendingIsCurrent() { pending == Some(current) }
    predicate IsLastStep() { current + 1 >= count }
    function Advance(): Option<ReplaySession> {
      if !PendingIsCurrent() || IsLastStep() then None
      else Some(this.(current := current + 1, pending := None))
    }
  }

  datatype ReflexTrace = ReflexTrace(hit: Option<bool>, sequence: nat, recipeKey: string)

  /**
   History of the replay machinery.  It is appended to when a rule step is
   issued, judged or given up, and no transition function reads it.
   */
  datatype ReplayEvent =
    | Issued(recipeKey: NonEmpty, index: nat, count: nat)
    | Judged(recipeKey: NonEmpty, index: nat, ready: bool, persisted: Option<bool>)
    | GivenUp(recipeKey: NonEmpty)

  datatype Replay = Replay(
    trace: ReflexTrace, session: Option<ReplaySession>, blocked: seq<NonEmpty>,
    history: seq<ReplayEvent>)

  datatype Capture = Capture(url: string, cardKey: string)

  datatype ReviewStatus = CompleteReview | NeedsMore | SourceIncomplete | InvalidTarget

  datatype Review = Review(status: ReviewStatus, url: string)

  datatype Draft = Draft(url: string, cardKey: string)

  datatype Collection = Collection(
    queue: JobCardQueue.Queue, captures: seq<Capture>,
    draft: Option<Draft>, lastReview: Option<Review>)

  datatype CompletionReason =
    | NotCompleted | TargetReached | VisibleScopeCompleted | AgentFinished
    | ScreenUnavailable | ReasoningLimit

  datatype Lifecycle = Lifecycle(finished: bool, reason: CompletionReason)

  datatype WorkerState = WorkerState(
    obs: Observation, decision: Decision, transition: Transition, replay: Replay,
    collection: Collection, stage: Stage, lifecycle: Lifecycle)

  /** The state handed to the graph: the start page is open and logged as event 0. */
  function InitialState(startUrl: string, openStatus: ResultStatus): WorkerState {
    WorkerState(
      Observation(0, "", false, false, 0, startUrl, true, NoRole, {}, None),
      Decision(None, Navigation, 0),
      Transition(
        [Event(0, Some(OpenBrowser), openStatus, None, Screen("", NoRole), None)], 0,
        None, TransitionResult(Idle, None, None, NoReason, false)),
      Replay(ReflexTrace(None, 0, ""), None, [], []),
      Collection([], [], None, None),
      Navigation,
      Lifecycle(false, NotCompleted))
  }

  predicate ObservationReady(s: WorkerState) {
    s.obs.sequence > 0 && s.obs.screenshot != "" && s.obs.ocrComplete
  }

  function ResultFor(
      request: Option<TransitionRequest>, status: TransitionStatus, reason: Reason, visualChanged: bool)
    : TransitionResult
  {
    match request
    case None => TransitionResult(status, None, None, reason, visualChanged)
    case Some(r) => TransitionResult(status, Some(r.action), Some(r.source), reason, visualChanged)
  }

  function Finish(s: WorkerState, reason: CompletionReason): WorkerState {
    s.(lifecycle := Lifecycle(true, reason), stage := Finished)
  }

  function ScopeReason(intent: Intent): CompletionReason {
    if intent.mode == JobCardQueue.VisibleAll then VisibleScopeCompleted else TargetReached
  }
}
