/**
 The investigation graph (agent/graph/investigation_workflow.py and its nodes
 in investigation_request_nodes.py, investigation_evidence_nodes.py and
 investigation_collection_nodes.py; agent/application/search_constraint_service.py,
 agent/application/clarification_service.py).
 */
module Investigation {
  import opened Prelude
  import opened EvidencePolicy
  import opened CollectionPlan

  // ------------------------------------------------------------------------- state

  datatype Policy = ModelKnowledge | DatabaseFirst | WebRequired | DatabaseOnly

  datatype Question = Question(id: string)

  const OCCUPATION := "occupation_query"

  datatype Constraints = Constraints(
    occupationRequired: bool, occupationKnown: bool, sites: set<string>)

  datatype Request = Request(
    analysed: bool, policy: Policy, constraints: Constraints,
    questions: seq<Question>, answered: seq<string>)

  /** What one executed step left: a failed collection has no documents. */
  datatype CollectionResult = CollectionResult(docs: set<int>)

  /** A batch waiting to be stored; `step` records which step produced it and no node reads it. */
  datatype Batch = Batch(step: Step)

  datatype State = State(
    request: Request,
    requirements: seq<Requirement>,
    report: Report,
    plan: seq<Step>,
    executed: seq<string>,
    collected: set<int>,
    results: seq<CollectionResult>,
    pending: Option<Batch>,
    replanAttempted: bool)

  /** Raised stands for an exception of a node, Refused for the one that refuses the value of an answer. */
  datatype Node =
    | Understand | Clarify | Define | Inspection | Plan | Replan | Collect | Persist | Answer
    | Refused | Raised

  datatype Config = Config(node: Node, s: State)

  /** Sites with a collection tool, in catalogue order. */
  datatype Setup = Setup(catalog: seq<string>)

  /**
   What models, the user, the database and the browser answer to one node.  An
   answer reaches the graph only under the id of the pending question, the
   first open one; its value may be refused.
   */
  datatype World = World(
    analysis: Request,
    refused: bool, clarified: Constraints,
    requirements: seq<Requirement>,
    rows: seq<Row>, decisions: seq<Decision>,
    direct: Option<Step>, proposal: seq<Step>,
    workerFails: bool, persistFails: bool, docs: set<int>)

  function Initial(request: Request): Config {
    Config(Understand, State(request, [], NO_REPORT, [], [], {}, [], None, false))
  }

  // ----------------------------------------------------------------- request nodes

  /** `prepare_questions`: without open questions a missing occupation is asked once. */
  function PrepareQuestions(c: Constraints, questions: seq<Question>, answered: seq<string>): seq<Question> {
    if questions != [] then questions
    else if !c.occupationRequired || c.occupationKnown || OCCUPATION in answered then []
    else [Question(OCCUPATION)]
  }

  function WithoutOccupation(c: Constraints, questions: seq<Question>): seq<Question> {
    if questions == [] then []
    else
      var last := questions[|questions| - 1];
      WithoutOccupation(c, questions[..|questions| - 1]) +
      if last.id == OCCUPATION && c.occupationKnown then [] else [last]
  }

  function Understood(s: State, analysis: Request): State {
    if s.request.analysed then s
    else
      s.(request := analysis.(
        analysed := true, answered := s.request.answered,
        questions := PrepareQuestions(analysis.constraints, WithoutOccupation(analysis.constraints, analysis.questions), [])))
  }

  function RouteAfterUnderstand(s: State): Node {
    if s.request.questions != [] then Clarify
    else if s.request.policy == ModelKnowledge then Answer
    else Define
  }

  function Unanswered(questions: seq<Question>, id: string): seq<Question> {
    if questions == [] then []
    else
      var last := questions[|questions| - 1];
      Unanswered(questions[..|questions| - 1], id) + if last.id == id then [] else [last]
  }

  predicate Asked(questions: seq<Question>, id: string) {
    exists i :: 0 <= i < |questions| && questions[i].id == id
  }

  function Clarified(s: State, id: string, constraints: Constraints): State {
    var answered := s.request.answered + [id];
    s.(request := s.request.(
      constraints := constraints, answered := answered,
      questions := PrepareQuestions(constraints, Unanswered(s.request.questions, id), answered)))
  }

  // ---------------------------------------------------------------- evidence nodes

  /** `inspect_evidence`: after a web collection only the collected documents are looked at. */
  function Inspected(s: State, w: World): State {
    var web := s.request.policy == WebRequired && s.executed != [];
    var report := EvidencePolicy.Inspect(w.rows, s.requirements, if web then Some(s.collected) else None, web);
    s.(report :=
      if exists item | item in report.requirements :: item.semanticReview && item.candidates != []
      then Validate(report, s.requirements, w.decisions) else report)
  }

  predicate HasUnexecuted(s: State) { exists step | step in s.plan :: step.id !in s.executed }

  function AvailableSites(cfg: Setup, s: State): set<string> {
    set site | site in cfg.catalog && (s.request.constraints.sites == {} || site in s.request.constraints.sites)
  }

  function UnusedSites(cfg: Setup, s: State): set<string> {
    AvailableSites(cfg, s) - set step | step in s.plan :: step.arguments.site
  }

  predicate CanReplan(cfg: Setup, s: State) {
    && !s.replanAttempted
    && s.executed != []
    && !s.report.sufficient
    && !HasUnexecuted(s)
    && UnusedSites(cfg, s) != {}
  }

  function RouteAfterEvidence(cfg: Setup, s: State): Node {
    if s.request.policy == DatabaseOnly then Answer
    else if s.request.policy == WebRequired && s.executed == [] then Plan
    else if s.report.sufficient then Answer
    else if HasUnexecuted(s) then Collect
    else if s.plan != [] then (if CanReplan(cfg, s) then Replan else Answer)
    else Plan
  }

  function RequirementIds(s: State): set<string> { set r | r in s.requirements :: r.id }

  function Planned(cfg: Setup, s: State, w: World): State {
    s.(plan := if w.direct.Some? then [w.direct.value]
               else SelectSteps(w.proposal, (set site | site in cfg.catalog), RequirementIds(s)))
  }

  function Replanned(cfg: Setup, s: State, w: World): State {
    if s.replanAttempted || UnusedSites(cfg, s) == {} then s.(replanAttempted := true)
    else
      var proposed := SelectSteps(w.proposal, UnusedSites(cfg, s), RequirementIds(s));
      s.(plan := s.plan + NewSteps(s.plan, proposed), replanAttempted := true)
  }

  function RouteAfterPlan(s: State): Node { if HasUnexecuted(s) then Collect else Answer }

  // -------------------------------------------------------------- collection nodes

  /** `_next_step`: the first step whose id was not executed. */
  function NextStep(plan: seq<Step>, executed: seq<string>): (step: Step)
    requires exists step | step in plan :: step.id !in executed
    ensures step in plan && step.id !in executed
  {
    if plan[0].id !in executed then plan[0] else NextStep(plan[1..], executed)
  }

  /** `_complete_step_update` */
  function StepCompleted(s: State, step: Step, docs: set<int>): State {
    s.(executed := s.executed + [step.id], collected := s.collected + docs,
       results := s.results + [CollectionResult(docs)], pending := None)
  }

  function RouteRemaining(cfg: Setup, s: State): Node {
    if HasUnexecuted(s) then Collect else if CanReplan(cfg, s) then Replan else Answer
  }

  function RouteAfterCollect(cfg: Setup, s: State): Node {
    if s.pending.Some? then Persist else RouteRemaining(cfg, s)
  }

  function RouteAfterPersist(cfg: Setup, s: State): Node {
    if s.results != [] && s.results[|s.results| - 1].docs != {} then Inspection else RouteRemaining(cfg, s)
  }

  function Next(cfg: Setup, c: Config, w: World): Config {
    var s := c.s;
    match c.node
    case Understand => var r := Understood(s, w.analysis); Config(RouteAfterUnderstand(r), r)
    case Clarify =>
      if s.request.questions == [] then Config(Raised, s)
      else if w.refused then Config(Refused, s)
      else var r := Clarified(s, s.request.questions[0].id, w.clarified); Config(RouteAfterUnderstand(r), r)
    case Define => Config(Inspection, s.(requirements := w.requirements))
    case Inspection => var r := Inspected(s, w); Config(RouteAfterEvidence(cfg, r), r)
    case Plan => var r := Planned(cfg, s, w); Config(RouteAfterPlan(r), r)
    case Replan => var r := Replanned(cfg, s, w); Config(RouteAfterPlan(r), r)
    case Collect =>
      if !HasUnexecuted(s) then Config(Raised, s)
      else
        var step := NextStep(s.plan, s.executed);
        var r := if w.workerFails then StepCompleted(s, step, {}) else s.(pending := Some(Batch(step)));
        Config(RouteAfterCollect(cfg, r), r)
    case Persist =>
      if s.pending.None? || !HasUnexecuted(s) then Config(Raised, s)
      else
        var step := NextStep(s.plan, s.executed);
        var r := StepCompleted(s, step, if w.persistFails then {} else set id | id in w.docs && id > 0);
        Config(RouteAfterPersist(cfg, r), r)
    case _ => c
  }

  // -------------------------------------------------------------------- invariant

  ghost function PlanIds(s: State): set<string> { set step | step in s.plan :: step.id }

  ghost predicate Bookkeeping(s: State) {
    && Distinct(s.executed)
    && (forall id | id in s.executed :: id in PlanIds(s))
    && |s.results| == |s.executed|
    && (forall id :: id in s.collected <==> exists k :: 0 <= k < |s.results| && id in s.results[k].docs)
  }

  predicate Fresh(s: State) {
    s.plan == [] && s.executed == [] && s.results == [] && s.collected == {} && s.pending.None? && s.report == NO_REPORT &&
    !s.replanAttempted
  }

  /** The report speaks of the documents of this run, once there are any. */
  predicate Scoped(s: State) {
    s.request.policy == WebRequired && s.collected != {} ==> s.report.docs <= s.collected
  }

  ghost predicate Inv(c: Config) {
    var s := c.s;
    Bookkeeping(s) &&
    match c.node
    case Understand => Fresh(s)
    case Clarify => Fresh(s) && s.request.questions != []
    case Define => Fresh(s)
    case Inspection =>
      && s.pending.None?
      && (s.executed == [] ==> s.plan == [] && !s.replanAttempted)
      && (s.executed != [] ==> s.plan != [] && s.collected != {})
    case Plan => s.executed == [] && s.plan == [] && s.pending.None? && !s.replanAttempted
    case Replan => s.pending.None? && !s.replanAttempted && s.executed != [] && s.plan != [] && Scoped(s)
    case Collect => s.pending.None? && HasUnexecuted(s) && s.plan != [] && Scoped(s)
    case Persist =>
      && s.pending.Some? && HasUnexecuted(s) && s.plan != [] && Scoped(s)
      && s.pending.value.step == NextStep(s.plan, s.executed)
    case Answer => s.pending.None? && Scoped(s)
    case Refused => Fresh(s) && s.request.questions != []
    case Raised => false
  }

  lemma CompletedKeepsBookkeeping(s: State, step: Step, docs: set<int>)
    requires Bookkeeping(s) && step in s.plan && step.id !in s.executed
    ensures Bookkeeping(StepCompleted(s, step, docs))
  {
    var r := StepCompleted(s, step, docs);
    forall id ensures id in r.collected <==> exists k :: 0 <= k < |r.results| && id in r.results[k].docs {
      if id in s.collected {
        var k :| 0 <= k < |s.results| && id in s.results[k].docs;
        assert r.results[k] == s.results[k];
      }
      if id in docs { assert r.results[|s.results|].docs == docs; }
    }
  }

  lemma NothingCollectedBefore(s: State)
    requires Bookkeeping(s) && s.executed == []
    ensures s.collected == {}
  {
    forall id ensures id !in s.collected {}
  }

  lemma InspectedIsScoped(s: State, w: World)
    requires s.executed == [] ==> s.collected == {}
    ensures Scoped(Inspected(s, w))
  {
    if s.request.policy == WebRequired && s.executed != [] {
      var report := EvidencePolicy.Inspect(w.rows, s.requirements, Some(s.collected), true);
      InspectStaysInScope(w.rows, s.requirements, s.collected, true);
      InspectIsGrounded(w.rows, s.requirements, Some(s.collected), true);
      ValidationNarrows(report, s.requirements, w.decisions);
    }
  }

  lemma RequestKeepsInv(cfg: Setup, c: Config, w: World)
    requires Inv(c) && c.node in {Understand, Clarify, Define}
    ensures Inv(Next(cfg, c, w))
  {
    NothingCollectedBefore(c.s);
  }

  lemma InspectionKeepsInv(cfg: Setup, s: State, w: World)
    requires Inv(Config(Inspection, s))
    ensures Inv(Next(cfg, Config(Inspection, s), w))
  {
    if s.executed == [] { NothingCollectedBefore(s); }
    InspectedIsScoped(s, w);
    var r := Inspected(s, w);
    assert r == s.(report := r.report);
  }

  lemma PlanKeepsInv(cfg: Setup, s: State, w: World)
    requires Inv(Config(Plan, s))
    ensures Inv(Next(cfg, Config(Plan, s), w))
  {
    NothingCollectedBefore(s);
  }

  lemma ReplanKeepsInv(cfg: Setup, s: State, w: World)
    requires Inv(Config(Replan, s))
    ensures Inv(Next(cfg, Config(Replan, s), w))
  {
    var r := Replanned(cfg, s, w);
    assert r == s.(plan := r.plan, replanAttempted := true) && s.plan <= r.plan;
    assert PlanIds(s) <= PlanIds(r);
  }

  lemma CollectKeepsInv(cfg: Setup, s: State, w: World)
    requires Inv(Config(Collect, s))
    ensures Inv(Next(cfg, Config(Collect, s), w))
  {
    CompletedKeepsBookkeeping(s, NextStep(s.plan, s.executed), {});
  }

  lemma PersistKeepsInv(cfg: Setup, s: State, w: World)
    requires Inv(Config(Persist, s))
    ensures Inv(Next(cfg, Config(Persist, s), w))
  {
    var step := NextStep(s.plan, s.executed);
    CompletedKeepsBookkeeping(s, step, if w.persistFails then {} else set id | id in w.docs && id > 0);
  }

  /** From a state that satisfies the invariant no node raises but for a refused answer, which changes nothing. */
  lemma NextKeepsInv(cfg: Setup, c: Config, w: World)
    requires Inv(c)
    ensures Inv(Next(cfg, c, w)) && Next(cfg, c, w).node != Raised
    ensures Next(cfg, c, w).node == Refused && c.node != Refused ==>
      c.node == Clarify && w.refused && Next(cfg, c, w).s == c.s
  {
    match c.node
    case Understand | Clarify | Define => RequestKeepsInv(cfg, c, w);
    case Inspection => InspectionKeepsInv(cfg, c.s, w);
    case Plan => PlanKeepsInv(cfg, c.s, w);
    case Replan => ReplanKeepsInv(cfg, c.s, w);
    case Collect => CollectKeepsInv(cfg, c.s, w);
    case Persist => PersistKeepsInv(cfg, c.s, w);
    case _ =>
  }
}
