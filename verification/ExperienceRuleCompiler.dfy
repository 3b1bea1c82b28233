/**
 The rule compiler proper (agent/application/experience_rule_compiler.py):
 selected graph nodes become the numbered steps of an experience rule.
 */
module ExperienceRuleCompiler {
  import opened Prelude
  import opened ExecutionRecord
  import opened RuleCompiler

  datatype CompileError =
    | EmptyOrRepeatedNodes | UnknownNodes | WrongOrder | NoTransition | RepeatedTransition
    | NotSuccessful(seqNo: nat) | SensitiveAction(seqNo: nat) | NotReplayable(seqNo: nat)
    | InvalidSlot(seqNo: nat) | UnprovenSlot(seqNo: nat) | MissingRoi(seqNo: nat)

  datatype SourceStep = SourceStep(node: GraphNode, transition: ObservedTransition)

  const SEARCH_KEYWORD := "search_keyword"

  // ----------------------------------------------------------------- source steps

  function Of(node: GraphNode, transitions: seq<ObservedTransition>): seq<SourceStep> {
    seq(|transitions|, i requires 0 <= i < |transitions| => SourceStep(node, transitions[i]))
  }

  function SourceSteps(log: Log, nodes: seq<GraphNode>): seq<SourceStep> {
    if nodes == [] then []
    else
      var last := nodes[|nodes| - 1];
      SourceSteps(log, nodes[..|nodes| - 1]) + Of(last, NodeTransitions(log, last))
  }

  function Transitions(steps: seq<SourceStep>): seq<ObservedTransition> {
    seq(|steps|, i requires 0 <= i < |steps| => steps[i].transition)
  }

  function TransitionSeqs(steps: seq<SourceStep>): seq<nat> {
    seq(|steps|, i requires 0 <= i < |steps| => steps[i].transition.seqNo)
  }

  function Ordered(nodes: seq<GraphNode>, selected: seq<string>): seq<GraphNode> {
    if nodes == [] then []
    else
      var last := nodes[|nodes| - 1];
      Ordered(nodes[..|nodes| - 1], selected) + if last.id in selected then [last] else []
  }

  /** `_rule_source_steps` */
  function RuleSourceSteps(log: Log, graph: Graph, selected: seq<string>): Result<seq<SourceStep>, CompileError> {
    var ordered := Ordered(graph.nodes, selected);
    var steps := SourceSteps(log, ordered);
    if selected == [] || !Distinct(selected) then Err(EmptyOrRepeatedNodes)
    else if exists id | id in selected :: id !in NodeIds(graph.nodes) then Err(UnknownNodes)
    else if NodeIds(ordered) != selected then Err(WrongOrder)
    else if steps == [] then Err(NoTransition)
    else if !Distinct(TransitionSeqs(steps)) then Err(RepeatedTransition)
    else Ok(steps)
  }

  // -------------------------------------------------------------------- validation

  predicate SupportedActions(actions: seq<ObservedAction>) {
    if |actions| == 1 then
      var d := actions[0].detail;
      d.tool in {ClickMarker, TypeInMarker} || (d.tool == Scroll && d.hasTarget && d.roiSignature)
    else
      |actions| == 2 && actions[0].detail.tool == TypeInMarker &&
      var d := actions[1].detail;
      d.tool == ClickMarker || (d.tool == PressKey && d.key in {"enter", "return"})
  }

  /** `_validate_source_transition` */
  function TransitionError(t: ObservedTransition): Option<CompileError> {
    if t.evidence.None? || t.evidence.value.resultStatus != Success then Some(NotSuccessful(t.seqNo))
    else if exists a | a in t.actions :: a.detail.sensitive then Some(SensitiveAction(t.seqNo))
    else if !SupportedActions(t.actions) then Some(NotReplayable(t.seqNo))
    else None
  }

  function FirstError(steps: seq<SourceStep>): (r: Option<CompileError>)
    ensures r.None? <==> forall i :: 0 <= i < |steps| ==> TransitionError(steps[i].transition).None?
  {
    if steps == [] then None
    else if TransitionError(steps[0].transition).Some? then TransitionError(steps[0].transition)
    else
      assert forall i :: 0 < i < |steps| ==> steps[i] == steps[1..][i - 1];
      FirstError(steps[1..])
  }

  // ------------------------------------------------------------------------ actions

  datatype RuleAction = RuleAction(
    sourceSeq: nat, tool: ToolName, hasTarget: bool, key: string, text: string, slot: string)

  predicate SlotProven(d: ActionDetail, keyword: string) {
    d.slotName == SEARCH_KEYWORD || (keyword != "" && d.text == keyword)
  }

  /** `_input_slot` */
  function InputSlot(a: ObservedAction, keyword: string): Result<string, CompileError> {
    if a.detail.slot == "" then Ok("")
    else if a.detail.tool != TypeInMarker || a.detail.slot != SEARCH_KEYWORD then Err(InvalidSlot(a.sourceSeq))
    else if !SlotProven(a.detail, keyword) then Err(UnprovenSlot(a.sourceSeq))
    else Ok(a.detail.slot)
  }

  /** `_rule_action`: the typed text of an input slot is not kept. */
  function ToRuleAction(a: ObservedAction, keyword: string): Result<RuleAction, CompileError> {
    match InputSlot(a, keyword)
    case Err(e) => Err(e)
    case Ok(slot) =>
      if a.detail.hasTarget && !a.detail.roiPhash then Err(MissingRoi(a.sourceSeq))
      else Ok(RuleAction(a.sourceSeq, a.detail.tool, a.detail.hasTarget, a.detail.key,
                         if slot != "" then "" else a.detail.text, slot))
  }

  function ToRuleActions(actions: seq<ObservedAction>, keyword: string): Result<seq<RuleAction>, CompileError> {
    if actions == [] then Ok([])
    else
      match ToRuleActions(actions[..|actions| - 1], keyword)
      case Err(e) => Err(e)
      case Ok(front) =>
        match ToRuleAction(actions[|actions| - 1], keyword)
        case Err(e) => Err(e)
        case Ok(last) => Ok(front + [last])
  }

  // -------------------------------------------------------------------------- rules

  datatype EffectKind = UrlChange | PageChange | ScreenChange

  datatype Effect = Effect(kind: EffectKind, url: string, role: Role)

  datatype RuleStep = RuleStep(
    number: nat, transitionSeq: nat, before: Screen, actions: seq<RuleAction>, effect: Effect, nodeId: string)

  datatype RuleNode = RuleNode(id: string, seqs: seq<nat>, steps: seq<nat>)

  datatype Rule = Rule(steps: seq<RuleStep>, nodes: seq<RuleNode>, inputs: set<string>)

  /** `_expected_effect` */
  function ExpectedEffect(t: ObservedTransition): Effect {
    var kind :=
      if t.before.urlTemplate != t.after.urlTemplate && t.after.urlTemplate != "" then UrlChange
      else if t.before.role != t.after.role && t.after.role != NoRole then PageChange
      else ScreenChange;
    Effect(kind, t.after.urlTemplate, t.after.role)
  }

  function ToRuleStep(source: SourceStep, number: nat, actions: seq<RuleAction>): RuleStep {
    RuleStep(number, source.transition.seqNo, source.transition.before, actions,
             ExpectedEffect(source.transition), source.node.id)
  }

  function ToRuleSteps(sources: seq<SourceStep>, keyword: string): Result<seq<RuleStep>, CompileError> {
    if sources == [] then Ok([])
    else
      var last := sources[|sources| - 1];
      match ToRuleSteps(sources[..|sources| - 1], keyword)
      case Err(e) => Err(e)
      case Ok(front) =>
        match ToRuleActions(last.transition.actions, keyword)
        case Err(e) => Err(e)
        case Ok(actions) => Ok(front + [ToRuleStep(last, |sources|, actions)])
  }

  /** The step numbers that belong to a node. */
  function StepsOf(sources: seq<SourceStep>, id: string): seq<nat> {
    if sources == [] then []
    else StepsOf(sources[..|sources| - 1], id) + if sources[|sources| - 1].node.id == id then [|sources|] else []
  }

  function RuleNodes(nodes: seq<GraphNode>, sources: seq<SourceStep>): seq<RuleNode> {
    if nodes == [] then []
    else
      var last := nodes[|nodes| - 1];
      RuleNodes(nodes[..|nodes| - 1], sources) +
      if StepsOf(sources, last.id) != [] then [RuleNode(last.id, last.seqs, StepsOf(sources, last.id))] else []
  }

  function Slots(steps: seq<RuleStep>): set<string> {
    set step, a | step in steps && a in step.actions && a.slot != "" :: a.slot
  }

  function Compile(log: Log, graph: Graph, selected: seq<string>, keyword: string): Result<Rule, CompileError> {
    match RuleSourceSteps(log, graph, selected)
    case Err(e) => Err(e)
    case Ok(sources) =>
      match FirstError(sources)
      case Some(e) => Err(e)
      case None =>
        match ToRuleSteps(sources, keyword)
        case Err(e) => Err(e)
        case Ok(steps) => Ok(Rule(steps, RuleNodes(graph.nodes, sources), Slots(steps)))
  }

  lemma ToRuleStepsStops(sources: seq<SourceStep>, keyword: string, i: nat)
    requires i < |sources|
    requires ToRuleSteps(sources[..i], keyword).Ok? && ToRuleActions(sources[i].transition.actions, keyword).Err?
    ensures ToRuleSteps(sources, keyword) == Err(ToRuleActions(sources[i].transition.actions, keyword).error)
    decreases |sources|
  {
    if i == |sources| - 1 {
      assert sources[..i] == sources[..|sources| - 1];
    } else {
      assert sources[..|sources| - 1][..i] == sources[..i];
      ToRuleStepsStops(sources[..|sources| - 1], keyword, i);
    }
  }

  function ActionSlots(actions: seq<RuleAction>): set<string> { set a | a in actions && a.slot != "" :: a.slot }

  /** The loop over the validated source steps; `numbers` is `step_ids_by_node`. */
  method CompileSteps(sources: seq<SourceStep>, keyword: string)
    returns (result: Result<seq<RuleStep>, CompileError>, slots: set<string>, numbers: map<string, seq<nat>>)
    ensures result == ToRuleSteps(sources, keyword)
    ensures result.Ok? ==> slots == Slots(result.value)
    ensures result.Ok? ==> forall id ::
      StepsOf(sources, id) == (if id in numbers then numbers[id] else []) && (id in numbers ==> numbers[id] != [])
  {
    var steps: seq<RuleStep> := [];
    slots, numbers := {}, map[];
    for i := 0 to |sources|
      invariant ToRuleSteps(sources[..i], keyword) == Ok(steps)
      invariant slots == Slots(steps)
      invariant forall id :: StepsOf(sources[..i], id) == (if id in numbers then numbers[id] else [])
      invariant forall id :: id in numbers ==> numbers[id] != []
    {
      assert sources[..i + 1][..i] == sources[..i];
      var source := sources[i];
      var actions := ToRuleActions(source.transition.actions, keyword);
      if actions.Err? {
        ToRuleStepsStops(sources, keyword, i);
        return Err(actions.error), slots, numbers;
      }
      var step := ToRuleStep(source, i + 1, actions.value);
      SlotsAppend(steps, step);
      slots := slots + ActionSlots(actions.value);
      numbers := numbers[source.node.id :=
        (if source.node.id in numbers then numbers[source.node.id] else []) + [i + 1]];
      steps := steps + [step];
    }
    assert sources[..|sources|] == sources;
    result := Ok(steps);
  }

  method CollectRuleNodes(nodes: seq<GraphNode>, numbers: map<string, seq<nat>>, ghost sources: seq<SourceStep>)
    returns (result: seq<RuleNode>)
    requires forall id ::
      StepsOf(sources, id) == (if id in numbers then numbers[id] else []) && (id in numbers ==> numbers[id] != [])
    ensures result == RuleNodes(nodes, sources)
  {
    result := [];
    for i := 0 to |nodes|
      invariant result == RuleNodes(nodes[..i], sources)
    {
      assert nodes[..i + 1][..i] == nodes[..i];
      var node := nodes[i];
      assert StepsOf(sources, node.id) == if node.id in numbers then numbers[node.id] else [];
      if node.id in numbers { result := result + [RuleNode(node.id, node.seqs, numbers[node.id])]; }
    }
    assert nodes[..|nodes|] == nodes;
  }

  method CompileExperienceRule(log: Log, graph: Graph, selected: seq<string>, keyword: string)
    returns (result: Result<Rule, CompileError>)
    ensures result == Compile(log, graph, selected, keyword)
  {
    var sourced := RuleSourceSteps(log, graph, selected);
    if sourced.Err? { return Err(sourced.error); }
    var sources := sourced.value;
    var invalid := FirstError(sources);
    if invalid.Some? { return Err(invalid.value); }
    var steps, slots, numbers := CompileSteps(sources, keyword);
    if steps.Err? { return Err(steps.error); }
    var nodes := CollectRuleNodes(graph.nodes, numbers, sources);
    return Ok(Rule(steps.value, nodes, slots));
  }

  lemma SlotsAppend(steps: seq<RuleStep>, step: RuleStep)
    ensures Slots(steps + [step]) == Slots(steps) + ActionSlots(step.actions)
  {
    var more := ActionSlots(step.actions);
    forall slot ensures slot in Slots(steps + [step]) <==> slot in Slots(steps) || slot in more {
      if slot in Slots(steps) {
        var s, a :| s in steps && a in s.actions && a.slot != "" && a.slot == slot;
        assert s in steps + [step];
      }
      if slot in more {
        var a :| a in step.actions && a.slot != "" && a.slot == slot;
        assert step in steps + [step];
      }
      if slot in Slots(steps + [step]) {
        var s, a :| s in steps + [step] && a in s.actions && a.slot != "" && a.slot == slot;
        assert s in steps || s == step;
      }
    }
  }

  // ---------------------------------------------------------- when compilation succeeds

  /** A transition the compiler can turn into a step. */
  ghost predicate Replayable(t: ObservedTransition, keyword: string) {
    && t.evidence.Some? && t.evidence.value.resultStatus == Success
    && SupportedActions(t.actions)
    && forall i :: 0 <= i < |t.actions| ==> ActionReplayable(t.actions[i].detail, keyword)
  }

  ghost predicate ActionReplayable(d: ActionDetail, keyword: string) {
    && !d.sensitive
    && (d.slot != "" ==> d.tool == TypeInMarker && d.slot == SEARCH_KEYWORD && SlotProven(d, keyword))
    && (d.hasTarget ==> d.roiPhash)
  }

  lemma {:induction false} ActionsCompileIff(actions: seq<ObservedAction>, keyword: string)
    ensures ToRuleActions(actions, keyword).Ok? <==>
      forall i :: 0 <= i < |actions| ==> ToRuleAction(actions[i], keyword).Ok?
    ensures ToRuleActions(actions, keyword).Ok? ==>
      var r := ToRuleActions(actions, keyword).value;
      |r| == |actions| && forall i :: 0 <= i < |r| ==> ToRuleAction(actions[i], keyword) == Ok(r[i])
  {
    if actions != [] {
      var n := |actions| - 1;
      ActionsCompileIff(actions[..n], keyword);
      assert forall i :: 0 <= i < n ==> actions[..n][i] == actions[i];
    }
  }

  lemma {:induction false} StepsCompileIff(sources: seq<SourceStep>, keyword: string)
    ensures ToRuleSteps(sources, keyword).Ok? <==>
      forall i :: 0 <= i < |sources| ==> ToRuleActions(sources[i].transition.actions, keyword).Ok?
    ensures ToRuleSteps(sources, keyword).Ok? ==>
      var r := ToRuleSteps(sources, keyword).value;
      |r| == |sources| && forall i :: 0 <= i < |r| ==>
        ToRuleActions(sources[i].transition.actions, keyword).Ok? &&
        r[i] == ToRuleStep(sources[i], i + 1, ToRuleActions(sources[i].transition.actions, keyword).value)
  {
    if sources != [] {
      var n := |sources| - 1;
      StepsCompileIff(sources[..n], keyword);
      assert forall i :: 0 <= i < n ==> sources[..n][i] == sources[i];
    }
  }

  lemma ReplayableMeans(t: ObservedTransition, keyword: string)
    ensures Replayable(t, keyword) <==> TransitionError(t).None? && ToRuleActions(t.actions, keyword).Ok?
  {
    ActionsCompileIff(t.actions, keyword);
    if Replayable(t, keyword) {
      forall a | a in t.actions ensures !a.detail.sensitive {
        var i :| 0 <= i < |t.actions| && t.actions[i] == a;
      }
    }
    if TransitionError(t).None? {
      forall i | 0 <= i < |t.actions| ensures !t.actions[i].detail.sensitive {
        assert t.actions[i] in t.actions;
      }
    }
  }

  /** Compilation succeeds exactly when every selected transition is replayable as recorded. */
  lemma CompilesIffReplayable(log: Log, graph: Graph, selected: seq<string>, keyword: string)
    requires RuleSourceSteps(log, graph, selected).Ok?
    ensures Compile(log, graph, selected, keyword).Ok? <==>
      var sources := RuleSourceSteps(log, graph, selected).value;
      forall i :: 0 <= i < |sources| ==> Replayable(sources[i].transition, keyword)
  {
    var sources := RuleSourceSteps(log, graph, selected).value;
    StepsCompileIff(sources, keyword);
    forall i | 0 <= i < |sources|
      ensures Replayable(sources[i].transition, keyword) <==>
        TransitionError(sources[i].transition).None? && ToRuleActions(sources[i].transition.actions, keyword).Ok?
    {
      ReplayableMeans(sources[i].transition, keyword);
    }
  }
}
