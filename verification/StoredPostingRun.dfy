/**
 A run of the worker graph in which a click gets no transition: the list is
 read, its one card is queued and clicked, and the page that opens is one the
 database already holds (agent/graph/worker_selection.py).
 */
module StoredPostingRun {
  import opened Prelude
  import opened ExecutionRecord
  import opened WorkerContracts
  import opened JobCardQueue
  import opened ReplayRuntime
  import opened WorkerTransition
  import opened WorkerSelection
  import opened WorkerReasoning
  import opened WorkerCycle
  import opened WorkerExecution
  import opened WorkerGraph
  import opened WorkerRuns
  import opened WorkerCaptures

  // ------------------------------------------------------------------ the world

  function Site(): Cfg {
    Cfg(Intent(VisibleAll, 0), 1, 5, false, 0.0, url => url == "detail", url => url, url => url, url => url,
        url => url, (template, url) => true)
  }

  const SETTLED := Screening(false, None, false, false)

  const LISTED := RawCard(1, "Engineer", "engineer", "")

  function QueueTheCard(): Reflection {
    Reflection(false, false, false, false, _ => Attempt(false, Some([ToolCall(SetJobCardQueue, "", [LISTED], 0)])))
  }

  function Answering(first: Lookup): Answers {
    Answers(first, Lookup(None, false), OcrResult({1}, Search, SETTLED), [], [], QueueTheCard())
  }

  const CLICKED := ActionDetail(ClickMarker, true, true, true, "", "", "", "", false)

  function Succeeding(): ExecutionAnswers {
    ExecutionAnswers(false, false, _ => CallAnswer(false, false, Success, true, "", Some(CLICKED), EmptyBuffer, "", []))
  }

  function Showing(sight: Sight, first: Lookup): World {
    World(sight, Answering(first), Succeeding(), Review(NeedsMore, ""))
  }

  /** The list is on screen, with a card that can be clicked. */
  function ListShown(): World { Showing(Sight("list.png", false, "list", SETTLED), Lookup(None, true)) }

  /** The detail page is on screen, and the database holds it as posting 7. */
  function StoredDetailShown(): World {
    Showing(Sight("detail.png", false, "detail", Screening(true, None, false, true)), Lookup(Some(Some(7)), false))
  }

  // ------------------------------------------------------------------ the states

  function ListCaptured(): WorkerState {
    var s := InitialState("list", Success);
    s.(obs := Observation(1, "list.png", false, false, 0, "list", false, NoRole, {}, None),
       transition := s.transition.(result := TransitionResult(Idle, None, None, NoTransitionRequest, false)))
  }

  function QueueProposed(): WorkerState {
    var s := ListCaptured();
    s.(obs := s.obs.(ocrComplete := true, markers := {1}, role := Search), stage := Results,
       decision := Decision(
         Some(ActionRequest(Llm, [ToolCall(SetJobCardQueue, "", [LISTED], 0)], None)), Results, 1),
       replay := s.replay.(trace := ReflexTrace(Some(false), 0, "")))
  }

  const CARD := Card(1, Pending, "Engineer", "engineer", "", 1, None)

  function Queued(): WorkerState {
    var s := QueueProposed();
    s.(decision := s.decision.(pending := None),
       transition := s.transition.(events := s.transition.events +
         [Event(1, Some(SetJobCardQueue), Success, None, Screen("list", Search), None)]),
       collection := s.collection.(queue := [CARD]))
  }

  function ClickProposed(): WorkerState {
    var s := Queued();
    s.(decision := s.decision.(pending :=
         Some(ActionRequest(CardQueue, [ToolCall(ClickMarker, "", [], 1)], None))))
  }

  function ClickRequest(): TransitionRequest {
    TransitionRequest(2, [2], ClickMarker, 1, CardQueue, "", None, [ClickMarker], "list", Search, "list.png", false)
  }

  function Clicked(): WorkerState {
    var s := Queued();
    s.(obs := s.obs.(urlStale := true), stage := OpeningDetail,
       transition := s.transition.(
         events := s.transition.events +
           [Event(2, Some(ClickMarker), Success, Some(ObservedAction(2, CLICKED)), Screen("list", Search), None)],
         request := Some(ClickRequest()),
         result := ResultFor(Some(ClickRequest()), WaitingCapture, NoReason, false)),
       collection := s.collection.(queue := [CARD.(status := Active)]))
  }

  function DetailCaptured(): WorkerState {
    var s := Clicked();
    s.(obs := Observation(2, "detail.png", false, false, 0, "detail", false, NoRole, {},
                          Some(PreviousObservation(1, "list.png", "list", {1}, Search))),
       transition := s.transition.(result := ResultFor(Some(ClickRequest()), NeedsOcr, OcrRequired, true)))
  }

  // ------------------------------------------------------------------ the steps

  lemma FirstCapture()
    ensures Next(Site(), Start("list", Success), ListShown()) == Config(AtDecision, ListCaptured())
  {}

  lemma CardIsProposed()
    ensures Next(Site(), Config(AtDecision, ListCaptured()), ListShown()) == Config(AtExecution, QueueProposed())
  {}

  lemma TheCardIsListed()
    ensures Normalized([], [LISTED], {1}) == [CARD] && MarkExisting([CARD], []) == [CARD] && Unresolved([CARD])
  {
    var raws := [LISTED];
    assert raws[1..] == [] && Kept([]) == [] && AddCard([], LISTED, {1}) == [CARD];
    assert AddCards([CARD], [], {1}) == [CARD];
    assert AddCards([], raws, {1}) == AddCards([CARD], raws[1..], {1});
    assert Marked([CARD], [], 0) == CARD;
    assert [CARD][0].status == Pending;
  }

  lemma CardIsQueued()
    ensures Next(Site(), Config(AtExecution, QueueProposed()), ListShown()) == Config(AtDecision, Queued())
  {
    var s := QueueProposed();
    var req, env := s.decision.pending.value, ListShown().execution;
    SingleRequestRuns(Site(), Ctx(s, []), req, env);
    TheCardIsListed();
    var stored := QueueStored(Site(), Ctx(s, []), req.calls[0], env.calls(0));
    assert stored == Ctx(s.(collection := s.collection.(queue := [CARD])), []);
    var called := Recorded(stored, SetJobCardQueue, Success, None, Screen("list", Search));
    assert CallExecuted(Site(), Ctx(s, []), req, req.calls[0], env.calls(0)) == (called, true);
    assert called.added == [Event(1, Some(SetJobCardQueue), Success, None, Screen("list", Search), None)];
    assert Execute(Site(), s, env) == FinishedState(called);
  }

  lemma TheCardIsNext()
    ensures HasPending([CARD]) && !HasActive([CARD]) && FirstPending([CARD]) == 0
  {
    assert [CARD][0].status == Pending;
  }

  lemma ClickIsProposed()
    ensures Next(Site(), Config(AtDecision, Queued()), ListShown()) == Config(AtExecution, ClickProposed())
  {
    var s := Queued();
    TheCardIsNext();
    assert ResultsNavigationStep(Site(), s).None?;
    assert Select(Site(), s, ListShown().answers.first) == ClickProposed();
  }

  lemma TheCardIsActivated()
    ensures Activated([CARD], 1) == [CARD.(status := Active)] && ClickMatchesQueue([CARD], 1)
  {
    assert Clickable([CARD], 1, 0) && CARD in [CARD];
  }

  /** What executing a queued click that succeeds leaves. */
  function AfterClick(cfg: Cfg, s: WorkerState, req: ActionRequest, id: nat): WorkerState {
    var n := |s.transition.events|;
    var request := GroupedRequest(s.(obs := s.obs.(urlStale := true)), req, n, ClickMarker, CardQueue);
    s.(obs := s.obs.(urlStale := true),
       stage := OpeningDetail,
       decision := s.decision.(pending := None),
       transition := Transition(
         s.transition.events +
           [Event(n, Some(ClickMarker), Success, Some(ObservedAction(n, CLICKED)), BeforeScreen(cfg, s), None)],
         0, Some(request), ResultFor(Some(request), WaitingCapture, NoReason, false)),
       collection := s.collection.(queue := Activated(s.collection.queue, id)))
  }

  lemma QueuedClickSucceeds(cfg: Cfg, s: WorkerState, req: ActionRequest, id: nat)
    requires s.decision.pending == Some(req) && ClickMatchesQueue(s.collection.queue, id)
    requires req == ActionRequest(CardQueue, [ToolCall(ClickMarker, "", [], id)], None)
    ensures Execute(cfg, s, Succeeding()) == AfterClick(cfg, s, req, id)
  {
    var c, call, answer := Ctx(s, []), req.calls[0], Succeeding().calls(0);
    SingleRequestRuns(cfg, c, req, Succeeding());
    var active := CardActivated(UiApplied(c, req, call, answer), call, Success);
    assert active.added == [];
    assert CallExecuted(cfg, c, req, call, answer).0 ==
      WithErrors(Recorded(active, ClickMarker, Success, Some(CLICKED), BeforeScreen(cfg, s)), 0);
  }

  lemma QueuedClickStep(cfg: Cfg, s: WorkerState, w: World, req: ActionRequest, id: nat)
    requires s.decision.pending == Some(req) && ClickMatchesQueue(s.collection.queue, id)
    requires req == ActionRequest(CardQueue, [ToolCall(ClickMarker, "", [], id)], None)
    requires w.execution == Succeeding() && !s.lifecycle.finished && s.collection.draft.None?
    ensures Next(cfg, Config(AtExecution, s), w) == Config(AtObservation, AfterClick(cfg, s, req, id))
  {
    QueuedClickSucceeds(cfg, s, req, id);
  }

  lemma AfterTheClick()
    ensures AfterClick(Site(), ClickProposed(), ClickProposed().decision.pending.value, 1) == Clicked()
  {
    TheCardIsActivated();
    var s := ClickProposed();
    var req := s.decision.pending.value;
    assert GroupedRequest(s.(obs := s.obs.(urlStale := true)), req, 2, ClickMarker, CardQueue) == ClickRequest();
  }

  lemma CardIsClicked()
    ensures Next(Site(), Config(AtExecution, ClickProposed()), ListShown()) == Config(AtObservation, Clicked())
  {
    TheCardIsActivated();
    QueuedClickStep(Site(), ClickProposed(), ListShown(), ClickProposed().decision.pending.value, 1);
    AfterTheClick();
  }

  lemma DetailIsCaptured()
    ensures Next(Site(), Config(AtObservation, Clicked()), StoredDetailShown()) == Config(AtDecision, DetailCaptured())
  {}

  /** The detail page is judged a duplicate, so that the click's request is dropped. */
  lemma RequestIsDropped()
    requires Inv(Site(), Config(AtDecision, DetailCaptured()))
    ensures var next := Next(Site(), Config(AtDecision, DetailCaptured()), StoredDetailShown());
      next.s.transition.request.None? && next.s.transition.events == DetailCaptured().transition.events
  {
    assert DetailCaptured().collection.queue[0].status == Active;
    StoredDetailDropsRequest(Site(), DetailCaptured(), StoredDetailShown().answers);
  }

  lemma ExtendRun(run: seq<Config>, worlds: seq<World>, last: Config, w: World, next: Config)
    returns (longer: seq<Config>, more: seq<World>)
    requires IsRun(Site(), run, worlds) && run[|worlds|] == last && next == Next(Site(), last, w)
    ensures IsRun(Site(), longer, more) && longer == run + [next] && more == worlds + [w]
  {
    longer, more := run + [next], worlds + [w];
    var url, status :| run[0] == Start(url, status);
    assert longer[0] == Start(url, status);
    forall i | 0 <= i < |more| ensures longer[i + 1] == Next(Site(), longer[i], more[i]) {
      if i < |worlds| { assert run[i + 1] == Next(Site(), run[i], worlds[i]); }
    }
  }

  lemma RunToQueue() returns (run: seq<Config>, worlds: seq<World>)
    ensures IsRun(Site(), run, worlds) && |worlds| == 3 && run[3] == Config(AtDecision, Queued())
  {
    run, worlds := [Start("list", Success)], [];
    FirstCapture();
    run, worlds := ExtendRun(run, worlds, Start("list", Success), ListShown(), Config(AtDecision, ListCaptured()));
    CardIsProposed();
    run, worlds := ExtendRun(run, worlds, Config(AtDecision, ListCaptured()), ListShown(),
                             Config(AtExecution, QueueProposed()));
    CardIsQueued();
    run, worlds := ExtendRun(run, worlds, Config(AtExecution, QueueProposed()), ListShown(),
                             Config(AtDecision, Queued()));
  }

  lemma RunToClick() returns (run: seq<Config>, worlds: seq<World>)
    ensures IsRun(Site(), run, worlds) && |worlds| == 5 && run[5] == Config(AtObservation, Clicked())
  {
    run, worlds := RunToQueue();
    ClickIsProposed();
    run, worlds := ExtendRun(run, worlds, Config(AtDecision, Queued()), ListShown(),
                             Config(AtExecution, ClickProposed()));
    CardIsClicked();
    run, worlds := ExtendRun(run, worlds, Config(AtExecution, ClickProposed()), ListShown(),
                             Config(AtObservation, Clicked()));
  }

  /**
   The run: seven steps from the start page the request of a successful,
   recorded click is gone, and the click's event has no transition.
   */
  lemma ClickWithoutTransition() returns (run: seq<Config>, worlds: seq<World>)
    ensures IsRun(Site(), run, worlds) && |worlds| == 7
    ensures run[6].node == AtDecision && run[6].s.transition.request.Some? && run[7].s.transition.request.None?
    ensures run[7].s.transition.events == run[6].s.transition.events && |run[7].s.transition.events| == 3
    ensures var click := run[7].s.transition.events[2];
      click.tool == Some(ClickMarker) && click.status == Success && click.candidate.Some? && click.transition.None?
  {
    run, worlds := RunToClick();
    DetailIsCaptured();
    run, worlds := ExtendRun(run, worlds, Config(AtObservation, Clicked()), StoredDetailShown(),
                             Config(AtDecision, DetailCaptured()));
    RunKeepsInv(Site(), run, worlds, 6);
    RequestIsDropped();
    run, worlds := ExtendRun(run, worlds, Config(AtDecision, DetailCaptured()), StoredDetailShown(),
                             Next(Site(), Config(AtDecision, DetailCaptured()), StoredDetailShown()));
    assert run[7].s.transition.events == DetailCaptured().transition.events;
  }
}
