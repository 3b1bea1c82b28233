/** Every investigation ends, after a bounded number of questions and plans, with a scoped report. */
module InvestigationRuns {
  import opened Prelude
  import opened EvidencePolicy
  import opened CollectionPlan
  import opened Investigation

  // ---------------------------------------------------------------------- measure

  /** Questions that can still be asked: the open ones, and the occupation if it may come up. */
  function Budget(r: Request): nat {
    |r.questions| + if OCCUPATION in r.answered || Asked(r.questions, OCCUPATION) then 0 else 1
  }

  function PlanLeft(c: Config): nat {
    if c.node in {Understand, Clarify, Define, Plan} || (c.node == Inspection && c.s.executed == []) then 1 else 0
  }

  function ReplanLeft(s: State): nat { if s.replanAttempted then 0 else 1 }

  ghost function Unexecuted(s: State): set<string> { PlanIds(s) - set id | id in s.executed }

  function Rank(node: Node): nat {
    match node
    case Define => 5
    case Inspection => 4
    case Plan | Replan => 3
    case Collect => 2
    case Persist => 1
    case _ => 0
  }

  predicate Terminal(c: Config) { c.node in {Answer, Refused, Raised} }

  datatype Measure = Measure(start: nat, questions: nat, plan: nat, replan: nat, steps: nat, rank: nat)

  ghost function MeasureOf(c: Config): Measure {
    Measure(if c.node == Understand then 1 else 0, Budget(c.s.request), PlanLeft(c), ReplanLeft(c.s),
            |Unexecuted(c.s)|, Rank(c.node))
  }

  predicate Less(a: Measure, b: Measure) {
    || a.start < b.start
    || (a.start == b.start && (
        || a.questions < b.questions
        || (a.questions == b.questions && (
            || a.plan < b.plan
            || (a.plan == b.plan && (
                || a.replan < b.replan
                || (a.replan == b.replan && (
                    || a.steps < b.steps
                    || (a.steps == b.steps && a.rank < b.rank)))))))))
  }

  lemma {:induction false} UnansweredShrinks(questions: seq<Question>, id: string)
    ensures |Unanswered(questions, id)| + (if Asked(questions, id) then 1 else 0) <= |questions|
  {
    if questions != [] {
      var front := questions[..|questions| - 1];
      UnansweredShrinks(front, id);
      AskedStep(questions, id);
    }
  }

  lemma AskedStep(questions: seq<Question>, id: string)
    requires questions != []
    ensures Asked(questions, id) <==>
      Asked(questions[..|questions| - 1], id) || questions[|questions| - 1].id == id
  {
    var front := questions[..|questions| - 1];
    assert forall k :: 0 <= k < |front| ==> front[k] == questions[k];
    if Asked(questions, id) {
      var k :| 0 <= k < |questions| && questions[k].id == id;
      if k < |front| { assert front[k].id == id; }
    }
    if Asked(front, id) {
      var k :| 0 <= k < |front| && front[k].id == id;
      assert questions[k].id == id;
    }
  }

  lemma AskedAppended(questions: seq<Question>, q: Question, id: string)
    ensures Asked(questions + [q], id) <==> Asked(questions, id) || q.id == id
  {
    assert (questions + [q])[..|questions|] == questions;
    AskedStep(questions + [q], id);
  }

  /** Answering one question keeps the others open. */
  lemma {:induction false} OthersStayAsked(questions: seq<Question>, id: string, other: string)
    requires other != id && Asked(questions, other)
    ensures Asked(Unanswered(questions, id), other)
  {
    if questions != [] {
      var front, last := questions[..|questions| - 1], questions[|questions| - 1];
      var rest := Unanswered(front, id);
      AskedStep(questions, other);
      if Asked(front, other) { OthersStayAsked(front, id, other); }
      AskedAppended(rest, last, other);
      assert Unanswered(questions, id) == if last.id == id then rest else rest + [last];
    }
  }

  lemma ClarifyReducesBudget(s: State, id: string, constraints: Constraints)
    requires Asked(s.request.questions, id)
    ensures Budget(Clarified(s, id, constraints).request) < Budget(s.request)
  {
    UnansweredShrinks(s.request.questions, id);
    var r := Clarified(s, id, constraints).request;
    var rest := Unanswered(s.request.questions, id);
    assert id in r.answered;
    if id != OCCUPATION && Asked(s.request.questions, OCCUPATION) {
      OthersStayAsked(s.request.questions, id, OCCUPATION);
    }
    if rest == [] && r.questions != [] {
      assert !Asked(rest, OCCUPATION);
      assert r.questions[0].id == OCCUPATION;
      assert OCCUPATION !in s.request.answered;
    }
  }

  lemma CompletingAStepCounts(s: State, docs: set<int>)
    requires Bookkeeping(s) && HasUnexecuted(s)
    ensures |Unexecuted(StepCompleted(s, NextStep(s.plan, s.executed), docs))| < |Unexecuted(s)|
  {
    var step := NextStep(s.plan, s.executed);
    var r := StepCompleted(s, step, docs);
    assert step.id in Unexecuted(s);
    assert Unexecuted(r) == Unexecuted(s) - {step.id};
  }

  /** One edge of the graph, as the measure and the tally see it. */
  ghost predicate Advances(c: Config, next: Config) {
    && Less(MeasureOf(next), MeasureOf(c))
    && next.node !in {Understand, Raised, Refused}
    && (c.node != Understand ==>
          Budget(next.s.request) + (if c.node == Clarify then 1 else 0) <= Budget(c.s.request))
    && PlanLeft(next) + (if c.node == Plan then 1 else 0) <= PlanLeft(c)
    && ReplanLeft(next.s) + (if c.node == Replan then 1 else 0) <= ReplanLeft(c.s)
  }

  /** Enough for an edge that leaves the request alone. */
  lemma AdvancesWith(c: Config, next: Config)
    requires next.s.request == c.s.request && next.node !in {Understand, Raised, Refused}
    requires c.node !in {Understand, Clarify}
    requires PlanLeft(next) + (if c.node == Plan then 1 else 0) <= PlanLeft(c)
    requires ReplanLeft(next.s) + (if c.node == Replan then 1 else 0) <= ReplanLeft(c.s)
    requires PlanLeft(next) < PlanLeft(c) || ReplanLeft(next.s) < ReplanLeft(c.s) ||
      |Unexecuted(next.s)| < |Unexecuted(c.s)| ||
      (|Unexecuted(next.s)| == |Unexecuted(c.s)| && Rank(next.node) < Rank(c.node))
    ensures Advances(c, next)
  {}

  /** Where the routers lead. */
  lemma RoutesAre(cfg: Setup, s: State)
    ensures RouteAfterEvidence(cfg, s) in {Answer, Plan, Collect, Replan}
    ensures RouteAfterPlan(s) in {Collect, Answer}
    ensures RouteRemaining(cfg, s) in {Collect, Replan, Answer}
    ensures RouteAfterCollect(cfg, s) in {Persist, Collect, Replan, Answer}
    ensures RouteAfterPersist(cfg, s) in {Inspection, Collect, Replan, Answer}
    ensures s.executed != [] && s.plan != [] ==> RouteAfterEvidence(cfg, s) != Plan
  {}

  lemma UnderstandAdvances(cfg: Setup, s: State, w: World)
    requires Inv(Config(Understand, s))
    ensures Advances(Config(Understand, s), Next(cfg, Config(Understand, s), w))
  {}

  lemma ClarifyAdvances(cfg: Setup, s: State, w: World)
    requires Inv(Config(Clarify, s)) && !w.refused
    ensures Advances(Config(Clarify, s), Next(cfg, Config(Clarify, s), w))
  {
    var id := s.request.questions[0].id;
    ClarifyReducesBudget(s, id, w.clarified);
    var r := Clarified(s, id, w.clarified);
    assert r == s.(request := r.request);
  }

  lemma InspectionAdvances(cfg: Setup, s: State, w: World)
    requires Inv(Config(Inspection, s))
    ensures Advances(Config(Inspection, s), Next(cfg, Config(Inspection, s), w))
  {
    var r := Inspected(s, w);
    assert r == s.(report := r.report);
    assert Unexecuted(r) == Unexecuted(s);
    RoutesAre(cfg, r);
    AdvancesWith(Config(Inspection, s), Config(RouteAfterEvidence(cfg, r), r));
  }

  lemma PlanAdvances(cfg: Setup, s: State, w: World)
    requires Inv(Config(Plan, s))
    ensures Advances(Config(Plan, s), Next(cfg, Config(Plan, s), w))
  {
    var r := Planned(cfg, s, w);
    assert r == s.(plan := r.plan);
    RoutesAre(cfg, r);
    AdvancesWith(Config(Plan, s), Config(RouteAfterPlan(r), r));
  }

  lemma ReplanAdvances(cfg: Setup, s: State, w: World)
    requires Inv(Config(Replan, s))
    ensures Advances(Config(Replan, s), Next(cfg, Config(Replan, s), w))
  {
    var r := Replanned(cfg, s, w);
    assert r == s.(plan := r.plan, replanAttempted := true);
    RoutesAre(cfg, r);
    AdvancesWith(Config(Replan, s), Config(RouteAfterPlan(r), r));
  }

  lemma CollectAdvances(cfg: Setup, s: State, w: World)
    requires Inv(Config(Collect, s))
    ensures Advances(Config(Collect, s), Next(cfg, Config(Collect, s), w))
  {
    var step := NextStep(s.plan, s.executed);
    if w.workerFails {
      CompletingAStepCounts(s, {});
      RoutesAre(cfg, StepCompleted(s, step, {}));
      CompletedAdvances(Config(Collect, s), step, {}, RouteAfterCollect(cfg, StepCompleted(s, step, {})));
    } else {
      var r := s.(pending := Some(Batch(step)));
      assert Unexecuted(r) == Unexecuted(s);
      AdvancesWith(Config(Collect, s), Config(RouteAfterCollect(cfg, r), r));
    }
  }

  lemma PersistAdvances(cfg: Setup, s: State, w: World)
    requires Inv(Config(Persist, s))
    ensures Advances(Config(Persist, s), Next(cfg, Config(Persist, s), w))
  {
    var docs := if w.persistFails then {} else set id | id in w.docs && id > 0;
    var r := StepCompleted(s, NextStep(s.plan, s.executed), docs);
    CompletingAStepCounts(s, docs);
    RoutesAre(cfg, r);
    CompletedAdvances(Config(Persist, s), NextStep(s.plan, s.executed), docs, RouteAfterPersist(cfg, r));
  }

  /** One more executed step is progress, wherever the run goes next. */
  lemma CompletedAdvances(c: Config, step: Step, docs: set<int>, node: Node)
    requires c.node in {Collect, Persist} && node in {Inspection, Collect, Replan, Answer, Persist}
    requires |Unexecuted(StepCompleted(c.s, step, docs))| < |Unexecuted(c.s)|
    ensures Advances(c, Config(node, StepCompleted(c.s, step, docs)))
  {
    var next := Config(node, StepCompleted(c.s, step, docs));
    assert next.s.executed != [];
    assert PlanLeft(next) == 0 && ReplanLeft(next.s) == ReplanLeft(c.s);
    AdvancesWith(c, next);
  }

  /** Every edge but the refusal of an answer decreases the measure. */
  lemma NextDecreases(cfg: Setup, c: Config, w: World)
    requires Inv(c) && !Terminal(c)
    ensures var next := Next(cfg, c, w);
      if c.node == Clarify && w.refused then next == Config(Refused, c.s)
      else Advances(c, next)
  {
    match c.node
    case Understand => UnderstandAdvances(cfg, c.s, w);
    case Clarify => if !w.refused { ClarifyAdvances(cfg, c.s, w); }
    case Define =>
    case Inspection => InspectionAdvances(cfg, c.s, w);
    case Plan => PlanAdvances(cfg, c.s, w);
    case Replan => ReplanAdvances(cfg, c.s, w);
    case Collect => CollectAdvances(cfg, c.s, w);
    case Persist => PersistAdvances(cfg, c.s, w);
  }

  // ------------------------------------------------------------------------- runs

  /** How often a run passed a node. */
  datatype Tally = Tally(clarifications: nat, plans: nat, replans: nat)

  function Count(node: Node, t: Tally): Tally {
    match node
    case Clarify => t.(clarifications := t.clarifications + 1)
    case Plan => t.(plans := t.plans + 1)
    case Replan => t.(replans := t.replans + 1)
    case _ => t
  }

  /** The next configuration, None when the user's answer is refused. */
  ghost function StepOf(cfg: Setup, c: Config, w: World): (r: Option<Config>)
    requires Inv(c) && !Terminal(c)
    ensures r.None? <==> c.node == Clarify && w.refused
    ensures r.None? ==> Next(cfg, c, w) == Config(Refused, c.s)
    ensures r.Some? ==> r.value == Next(cfg, c, w) && Inv(r.value) && Advances(c, r.value)
  {
    NextKeepsInv(cfg, c, w);
    NextDecreases(cfg, c, w);
    if c.node == Clarify && w.refused then None else Some(Next(cfg, c, w))
  }

  /** The end of the run from `c`; that this function terminates is the claim that every run ends. */
  ghost function RunFrom(cfg: Setup, c: Config, worlds: nat -> World, i: nat): (r: (Config, Tally))
    requires Inv(c) && c.node != Refused
    ensures Inv(r.0) && r.0.node in {Answer, Refused}
    ensures c.node != Understand ==> r.1.clarifications <= Budget(c.s.request)
    ensures r.1.plans <= PlanLeft(c) && r.1.replans <= ReplanLeft(c.s)
    decreases MeasureOf(c).start, MeasureOf(c).questions, MeasureOf(c).plan, MeasureOf(c).replan,
              MeasureOf(c).steps, MeasureOf(c).rank
  {
    if Terminal(c) then (c, Tally(0, 0, 0))
    else
      match StepOf(cfg, c, worlds(i))
      case None => (Config(Refused, c.s), Tally(0, 0, 0))
      case Some(next) =>
        var (end, tally) := RunFrom(cfg, next, worlds, i + 1);
        (end, Count(c.node, tally))
  }

  lemma InitialIsOk(request: Request)
    ensures Inv(Initial(request))
  {
    var s := Initial(request).s;
    assert forall id :: id in s.collected <==> exists k :: 0 <= k < |s.results| && id in s.results[k].docs;
  }

  /** One edge of a run that is not a refusal. */
  lemma RunUnfolds(cfg: Setup, c: Config, worlds: nat -> World, i: nat)
    requires Inv(c) && !Terminal(c) && !(c.node == Clarify && worlds(i).refused)
    ensures var next := Next(cfg, c, worlds(i));
      && Inv(next) && next.node != Refused
      && RunFrom(cfg, c, worlds, i) ==
           (RunFrom(cfg, next, worlds, i + 1).0, Count(c.node, RunFrom(cfg, next, worlds, i + 1).1))
  {
    var step := StepOf(cfg, c, worlds(i));
  }

  predicate PastQuestions(c: Config) { c.node !in {Understand, Clarify, Refused} }

  /** Once the evidence is defined, no question is asked any more and the run answers. */
  lemma {:induction false} PastQuestionsAnswers(cfg: Setup, c: Config, worlds: nat -> World, i: nat)
    requires Inv(c) && PastQuestions(c)
    ensures var r := RunFrom(cfg, c, worlds, i); r.0.node == Answer && r.1.clarifications == 0
    decreases MeasureOf(c).start, MeasureOf(c).questions, MeasureOf(c).plan, MeasureOf(c).replan,
              MeasureOf(c).steps, MeasureOf(c).rank
  {
    if !Terminal(c) {
      RunUnfolds(cfg, c, worlds, i);
      NextDecreases(cfg, c, worlds(i));
      StaysPastQuestions(cfg, c, worlds(i));
      PastQuestionsAnswers(cfg, Next(cfg, c, worlds(i)), worlds, i + 1);
    }
  }

  lemma StaysPastQuestions(cfg: Setup, c: Config, w: World)
    requires Inv(c) && PastQuestions(c) && !Terminal(c)
    ensures PastQuestions(Next(cfg, c, w)) && Next(cfg, c, w).s.request == c.s.request
  {
    NextKeepsInv(cfg, c, w);
  }

  /** The same answers, with every clarification accepted. */
  function Willing(worlds: nat -> World): nat -> World { (i: nat) => worlds(i).(refused := false) }

  /** How many questions a run asks if none of its answers is refused. */
  ghost function Questions(cfg: Setup, c: Config, worlds: nat -> World, i: nat): nat
    requires Inv(c) && c.node != Refused
  {
    RunFrom(cfg, c, Willing(worlds), i).1.clarifications
  }

  ghost predicate NoneRefused(worlds: nat -> World, i: nat, n: nat) {
    forall k :: i <= k < i + n ==> !worlds(k).refused
  }

  lemma {:induction false} ClarifyAnswersIff(cfg: Setup, c: Config, worlds: nat -> World, i: nat)
    requires Inv(c) && c.node !in {Understand, Refused}
    ensures RunFrom(cfg, c, worlds, i).0.node == Answer <==> NoneRefused(worlds, i, Questions(cfg, c, worlds, i))
    decreases MeasureOf(c).start, MeasureOf(c).questions, MeasureOf(c).plan, MeasureOf(c).replan,
              MeasureOf(c).steps, MeasureOf(c).rank
  {
    if c.node != Clarify {
      PastQuestionsAnswers(cfg, c, worlds, i);
      PastQuestionsAnswers(cfg, c, Willing(worlds), i);
    } else {
      RunUnfolds(cfg, c, Willing(worlds), i);
      if !worlds(i).refused {
        RunUnfolds(cfg, c, worlds, i);
        NextDecreases(cfg, c, worlds(i));
        assert Willing(worlds)(i) == worlds(i);
        ClarifyAnswersIff(cfg, Next(cfg, c, worlds(i)), worlds, i + 1);
        FirstAccepted(worlds, i, Questions(cfg, Next(cfg, c, worlds(i)), worlds, i + 1));
      }
    }
  }

  lemma FirstAccepted(worlds: nat -> World, i: nat, n: nat)
    requires !worlds(i).refused
    ensures NoneRefused(worlds, i, n + 1) <==> NoneRefused(worlds, i + 1, n)
  {}

  /**
   An investigation answers if and only if none of the answers to its n
   questions is refused, n being what it would ask if the user's answers were
   all accepted; otherwise it stops with the refused question still open.  With
   m questions left by the analysis n is at most m + 1, and the investigation
   plans at most once and replans at most once.
   */
  lemma EveryRunAnswers(cfg: Setup, request: Request, worlds: nat -> World)
    ensures Inv(Initial(request))
    ensures var (end, tally) := RunFrom(cfg, Initial(request), worlds, 0);
      var n := Questions(cfg, Initial(request), worlds, 0);
      var asked := Next(cfg, Initial(request), worlds(0)).s.request.questions;
      && (end.node == Answer <==> forall k :: 1 <= k <= n ==> !worlds(k).refused)
      && (end.node != Answer ==> end.node == Refused && end.s.request.questions != [])
      && tally.clarifications <= n <= |asked| + 1
      && tally.plans <= 1
      && tally.replans <= 1
  {
    InitialIsOk(request);
    var c, next := Initial(request), Next(cfg, Initial(request), worlds(0));
    RunUnfolds(cfg, c, worlds, 0);
    RunUnfolds(cfg, c, Willing(worlds), 0);
    assert Next(cfg, c, Willing(worlds)(0)) == next;
    NextDecreases(cfg, c, worlds(0));
    ClarifyAnswersIff(cfg, next, worlds, 1);
    AsksAtMostWilling(cfg, next, worlds, 1);
    assert Questions(cfg, c, worlds, 0) == Questions(cfg, next, worlds, 1);
  }

  /** A refusal only shortens the run. */
  lemma {:induction false} AsksAtMostWilling(cfg: Setup, c: Config, worlds: nat -> World, i: nat)
    requires Inv(c) && c.node !in {Understand, Refused}
    ensures RunFrom(cfg, c, worlds, i).1.clarifications <= Questions(cfg, c, worlds, i)
    decreases MeasureOf(c).start, MeasureOf(c).questions, MeasureOf(c).plan, MeasureOf(c).replan,
              MeasureOf(c).steps, MeasureOf(c).rank
  {
    if c.node != Clarify {
      PastQuestionsAnswers(cfg, c, worlds, i);
    } else if !worlds(i).refused {
      RunUnfolds(cfg, c, Willing(worlds), i);
      RunUnfolds(cfg, c, worlds, i);
      NextDecreases(cfg, c, worlds(i));
      assert Willing(worlds)(i) == worlds(i);
      AsksAtMostWilling(cfg, Next(cfg, c, worlds(i)), worlds, i + 1);
    }
  }

  /** A refused run: the analysis asks for the site, and the user's answer is refused. */
  lemma RefusedRun(cfg: Setup, w: World)
    ensures var none := Constraints(false, true, {});
      var request := Request(false, DatabaseFirst, none, [], []);
      var asking := w.(analysis := Request(true, DatabaseFirst, none, [Question("site_scope")], []), refused := true);
      Inv(Initial(request)) && RunFrom(cfg, Initial(request), _ => asking, 0).0.node == Refused
  {
    var none := Constraints(false, true, {});
    var request := Request(false, DatabaseFirst, none, [], []);
    var site := [Question("site_scope")];
    var asking := w.(analysis := Request(true, DatabaseFirst, none, site, []), refused := true);
    var worlds: nat -> World := _ => asking;
    InitialIsOk(request);
    RunUnfolds(cfg, Initial(request), worlds, 0);
    assert site[..0] == [];
    assert WithoutOccupation(none, site) == site;
    assert Next(cfg, Initial(request), asking).node == Clarify;
  }

  /**
   The answer to a web investigation that collected anything cites only
   documents collected in this run, and the executed steps, their results and
   the collected documents agree.
   */
  lemma AnswersAreScoped(cfg: Setup, request: Request, worlds: nat -> World)
    ensures Inv(Initial(request))
    ensures var end := RunFrom(cfg, Initial(request), worlds, 0).0;
      && (end.node == Answer && end.s.request.policy == WebRequired && end.s.collected != {} ==>
            end.s.report.docs <= end.s.collected)
      && Distinct(end.s.executed)
      && (forall id | id in end.s.executed :: exists step :: step in end.s.plan && step.id == id)
      && |end.s.results| == |end.s.executed|
      && (forall id :: id in end.s.collected <==> exists k :: 0 <= k < |end.s.results| && id in end.s.results[k].docs)
  {
    InitialIsOk(request);
    var end := RunFrom(cfg, Initial(request), worlds, 0).0;
    forall id | id in end.s.executed ensures exists step :: step in end.s.plan && step.id == id {
      assert id in PlanIds(end.s);
    }
  }

  /** Collecting always has a step to run, storing has a batch, and both mean the same step. */
  lemma CollectAndPersistAgree(cfg: Setup, c: Config, w: World)
    requires Inv(c) && c.node == Collect
    ensures HasUnexecuted(c.s)
    ensures var next := Next(cfg, c, w);
      next.node == Persist ==>
        && next.s.pending == Some(Batch(NextStep(c.s.plan, c.s.executed)))
        && HasUnexecuted(next.s) && NextStep(next.s.plan, next.s.executed) == NextStep(c.s.plan, c.s.executed)
  {}

  /** Planning is under way: evidence was inspected, and is only inspected again with collected documents. */
  predicate Collecting(c: Config) {
    c.node !in {Understand, Clarify, Define, Refused} && (c.node == Inspection ==> c.s.executed != [])
  }

  /** What an edge does to the report while nothing is collected. */
  lemma ReportWaits(cfg: Setup, c: Config, w: World)
    requires Inv(c) && Collecting(c) && !Terminal(c)
    ensures var next := Next(cfg, c, w);
      && Collecting(next) && c.s.collected <= next.s.collected
      && (next.s.collected == {} ==> next.s.report == c.s.report)
  {
    NextKeepsInv(cfg, c, w);
  }

  lemma {:induction false} PolicyStays(cfg: Setup, c: Config, worlds: nat -> World, i: nat)
    requires Inv(c) && PastQuestions(c)
    ensures RunFrom(cfg, c, worlds, i).0.s.request == c.s.request
    decreases MeasureOf(c).start, MeasureOf(c).questions, MeasureOf(c).plan, MeasureOf(c).replan,
              MeasureOf(c).steps, MeasureOf(c).rank
  {
    if !Terminal(c) {
      RunUnfolds(cfg, c, worlds, i);
      NextDecreases(cfg, c, worlds(i));
      StaysPastQuestions(cfg, c, worlds(i));
      PolicyStays(cfg, Next(cfg, c, worlds(i)), worlds, i + 1);
    }
  }

  lemma {:induction false} ReportWaitsForDocuments(cfg: Setup, c: Config, worlds: nat -> World, i: nat)
    requires Inv(c) && Collecting(c)
    ensures var end := RunFrom(cfg, c, worlds, i).0;
      && end.node == Answer && c.s.collected <= end.s.collected
      && (end.s.collected == {} ==> end.s.report == c.s.report)
    decreases MeasureOf(c).start, MeasureOf(c).questions, MeasureOf(c).plan, MeasureOf(c).replan,
              MeasureOf(c).steps, MeasureOf(c).rank
  {
    if !Terminal(c) {
      RunUnfolds(cfg, c, worlds, i);
      NextDecreases(cfg, c, worlds(i));
      ReportWaits(cfg, c, worlds(i));
      ReportWaitsForDocuments(cfg, Next(cfg, c, worlds(i)), worlds, i + 1);
    }
  }

  /**
   A web investigation ends with a report within its own documents exactly when
   it collected some, or the first look at the database found none: if nothing
   could be collected, the answer uses what the database held before.
   */
  lemma UncollectedAnswersUseTheDatabase(cfg: Setup, c: Config, worlds: nat -> World, i: nat)
    requires Inv(c) && c.node == Inspection && c.s.executed == [] && c.s.request.policy == WebRequired
    ensures var end := RunFrom(cfg, c, worlds, i).0;
      && end.node == Answer
      && (end.s.report.docs <= end.s.collected <==>
            end.s.collected != {} || Inspected(c.s, worlds(i)).report.docs == {})
  {
    RunUnfolds(cfg, c, worlds, i);
    var next := Next(cfg, c, worlds(i));
    assert next.s == Inspected(c.s, worlds(i)) && next.node == Plan;
    ReportWaitsForDocuments(cfg, next, worlds, i + 1);
    PolicyStays(cfg, next, worlds, i + 1);
  }

  /** What one posting of the database supports: a requirement of one document, without conditions. */
  const ANY_POSTING := Requirement(
    "any", {}, None, None, None, None, false, None, None, false, false, None, 1, [])

  function FailingCollection(w: World, row: Row, step: Step): World {
    w.(analysis := Request(true, WebRequired, Constraints(false, true, {}), [], []),
       requirements := [ANY_POSTING], rows := [row], direct := Some(step), workerFails := true)
  }

  lemma OnePostingIsReported(row: Row)
    ensures var report := EvidencePolicy.Inspect([row], [ANY_POSTING], None, false);
      report.docs == {row.id} && forall item | item in report.requirements :: !item.semanticReview
  {
    assert [row][..0] == [];
    assert RowsFor([row], ANY_POSTING, None) == [row];
    var report := EvidencePolicy.Inspect([row], [ANY_POSTING], None, false);
    assert report.requirements[0].ids == [row.id];
    assert report.requirements == [report.requirements[0]];
    var item := report.requirements[0];
    assert item in report.requirements && item.ids[0] == row.id;
    assert item.ids[0] in item.ids && row.id in report.docs;
    forall id | id in report.docs ensures id == row.id {
      var other :| other in report.requirements && id in other.ids;
      assert other == item;
    }
  }

  /** The run up to its plan: no question, and the stored posting as evidence. */
  lemma InspectedBeforeFailing(w: World, row: Row, step: Step, request: Request) returns (c: Config)
    requires request == Request(false, WebRequired, Constraints(false, true, {}), [], [])
    ensures Inv(Initial(request)) && Inv(c) && c.node == Plan
    ensures c.s.plan == [] && c.s.executed == [] && c.s.collected == {} && c.s.report.docs == {row.id}
    ensures var worlds: nat -> World := _ => FailingCollection(w, row, step);
      RunFrom(Setup([step.arguments.site]), Initial(request), worlds, 0).0 == RunFrom(Setup([step.arguments.site]), c, worlds, 3).0
  {
    var failing := FailingCollection(w, row, step);
    var worlds: nat -> World := _ => failing;
    var cfg := Setup([step.arguments.site]);
    InitialIsOk(request);
    var c0 := Initial(request);
    RunUnfolds(cfg, c0, worlds, 0);
    var c1 := Next(cfg, c0, failing);
    assert c1.node == Define && c1.s.request.policy == WebRequired;
    RunUnfolds(cfg, c1, worlds, 1);
    var c2 := Next(cfg, c1, failing);
    assert c2 == Config(Inspection, c1.s.(requirements := [ANY_POSTING]));
    RunUnfolds(cfg, c2, worlds, 2);
    c := Next(cfg, c2, failing);
    OnePostingIsReported(row);
    NothingCollectedBefore(c2.s);
  }

  /** From the plan on: its one step fails, no site is left, and the run answers. */
  lemma FailingPlanAnswers(c: Config, w: World, row: Row, step: Step)
    requires Inv(c) && c.node == Plan && c.s.plan == [] && c.s.executed == [] && c.s.collected == {}
    ensures var end := RunFrom(Setup([step.arguments.site]), c, _ => FailingCollection(w, row, step), 3).0;
      end.node == Answer && end.s.collected == {} && end.s.report == c.s.report
  {
    var failing := FailingCollection(w, row, step);
    var worlds: nat -> World := _ => failing;
    var cfg := Setup([step.arguments.site]);
    RunUnfolds(cfg, c, worlds, 3);
    var c4 := Next(cfg, c, failing);
    assert c4.s == c.s.(plan := [step]) && step in c4.s.plan;
    RunUnfolds(cfg, c4, worlds, 4);
    var c5 := Next(cfg, c4, failing);
    assert c5.s == StepCompleted(c4.s, step, {});
    assert step.id in c5.s.executed;
    assert AvailableSites(cfg, c5.s) <= {step.arguments.site};
    assert UnusedSites(cfg, c5.s) == {};
    assert c5.node == Answer;
  }

  /**
   The run: the only collection, from the only site, fails while the database holds a posting, and
   the web investigation answers from that posting although it collected none.
   */
  lemma FailedCollectionAnswersFromDatabase(w: World, row: Row, step: Step)
    ensures var request := Request(false, WebRequired, Constraints(false, true, {}), [], []);
      && Inv(Initial(request))
      && var end := RunFrom(Setup([step.arguments.site]), Initial(request), _ => FailingCollection(w, row, step), 0).0;
         end.node == Answer && end.s.collected == {} && end.s.report.docs == {row.id}
  {
    var request := Request(false, WebRequired, Constraints(false, true, {}), [], []);
    var c := InspectedBeforeFailing(w, row, step, request);
    FailingPlanAnswers(c, w, row, step);
  }

  /** A second plan goes to sites the first one did not use, under new ids. */
  lemma ReplanUsesNewSites(cfg: Setup, s: State, w: World, step: Step)
    requires step in Replanned(cfg, s, w).plan[|s.plan|..]
    ensures step.arguments.site in AvailableSites(cfg, s)
    ensures forall earlier | earlier in s.plan ::
      earlier.arguments.site != step.arguments.site && earlier.id != step.id
  {
    var proposed := SelectSteps(w.proposal, UnusedSites(cfg, s), RequirementIds(s));
    assert Replanned(cfg, s, w).plan[|s.plan|..] ==
      if s.replanAttempted || UnusedSites(cfg, s) == {} then [] else NewSteps(s.plan, proposed);
    NewStepIsNew(s.plan, proposed, step);
    SelectedSitesAreOffered(w.proposal, UnusedSites(cfg, s), RequirementIds(s), step);
  }
}
