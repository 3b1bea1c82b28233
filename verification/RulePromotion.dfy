/**
 What promotion preserves: an accepted review of a contract-valid graph
 compiles to a numbered, order-preserving selection of the recorded run.
 */
module RulePromotion {
  import opened Prelude
  import opened ExecutionRecord
  import opened RuleCompiler
  import opened ExperienceRuleCompiler

  // ---------------------------------------------------------- order and distinctness

  lemma {:induction false} SourceTransitions(log: Log, nodes: seq<GraphNode>)
    ensures Transitions(SourceSteps(log, nodes)) == AllTransitions(log, nodes)
  {
    if nodes != [] {
      var front, last := nodes[..|nodes| - 1], nodes[|nodes| - 1];
      SourceTransitions(log, front);
      assert Transitions(Of(last, NodeTransitions(log, last))) == NodeTransitions(log, last);
      assert Transitions(SourceSteps(log, nodes)) ==
        Transitions(SourceSteps(log, front)) + Transitions(Of(last, NodeTransitions(log, last)));
    }
  }

  lemma {:induction false} OrderedIsSubsequence(log: Log, nodes: seq<GraphNode>, selected: seq<string>)
    ensures IsSubsequence(AllTransitions(log, Ordered(nodes, selected)), AllTransitions(log, nodes))
  {
    if nodes == [] {
      EmptySubsequence(AllTransitions(log, nodes));
    } else {
      var front, last := nodes[..|nodes| - 1], nodes[|nodes| - 1];
      var own := NodeTransitions(log, last);
      OrderedIsSubsequence(log, front, selected);
      var kept := AllTransitions(log, Ordered(front, selected));
      if last.id in selected {
        SubsequenceRefl(own);
        SubsequenceConcat(kept, AllTransitions(log, front), own, own);
        assert Ordered(nodes, selected)[..|Ordered(nodes, selected)| - 1] == Ordered(front, selected);
      } else {
        EmptySubsequence(own);
        SubsequenceConcat(kept, AllTransitions(log, front), [], own);
        assert kept + [] == kept;
        assert Ordered(nodes, selected) == Ordered(front, selected);
      }
    }
  }

  ghost predicate DistinctSeqs(ts: seq<ObservedTransition>) {
    forall i, j :: 0 <= i < j < |ts| ==> ts[i].seqNo != ts[j].seqNo
  }

  lemma {:induction false} RecordedFrom(log: Log, k: nat) returns (i: nat)
    requires k < |Recorded(log)|
    ensures i < |log| && log[i].transition == Some(Recorded(log)[k])
    decreases |log|
  {
    var front := log[..|log| - 1];
    if k < |Recorded(front)| { i := RecordedFrom(front, k); } else { i := |log| - 1; }
  }

  lemma {:induction false} RecordedIsDistinct(log: Log)
    requires DistinctTransitions(log)
    ensures DistinctSeqs(Recorded(log))
  {
    if log != [] {
      var front := log[..|log| - 1];
      RecordedIsDistinct(front);
      var r := Recorded(log);
      forall i, j | 0 <= i < j < |r| ensures r[i].seqNo != r[j].seqNo {
        if j < |Recorded(front)| {
          assert r[i] == Recorded(front)[i] && r[j] == Recorded(front)[j];
        } else {
          var k := RecordedFrom(front, i);
          assert log[k] == front[k];
        }
      }
    }
  }

  lemma SubsequenceIsDistinct(sub: seq<ObservedTransition>, ts: seq<ObservedTransition>)
    requires IsSubsequence(sub, ts) && DistinctSeqs(ts)
    ensures DistinctSeqs(sub)
  {
    var at: seq<nat> :| Selects(ts, sub, at);
    forall i, j | 0 <= i < j < |sub| ensures sub[i].seqNo != sub[j].seqNo {
      assert at[i] < at[j];
    }
  }

  // ----------------------------------------------------------------- selected nodes

  lemma {:induction false} ChosenIdsAreDistinct(log: Log, nodes: seq<GraphNode>, verdicts: seq<Verdict>)
    requires Distinct(NodeIds(nodes))
    ensures Distinct(NodeIds(Chosen(log, nodes, verdicts, true)))
  {
    if nodes != [] {
      var front, last := nodes[..|nodes| - 1], nodes[|nodes| - 1];
      assert NodeIds(front) == NodeIds(nodes)[..|nodes| - 1];
      ChosenIdsAreDistinct(log, front, verdicts);
      ChosenMembers(log, front, verdicts, true);
      var ids, all := NodeIds(Chosen(log, front, verdicts, true)), NodeIds(nodes);
      forall i | 0 <= i < |ids| ensures ids[i] != last.id {
        var node := Chosen(log, front, verdicts, true)[i];
        assert node in Chosen(log, front, verdicts, true);
        var k :| 0 <= k < |front| && front[k] == node;
        assert all[k] == node.id && all[|nodes| - 1] == last.id;
      }
      assert NodeIds(Chosen(log, nodes, verdicts, true)) == ids ||
             NodeIds(Chosen(log, nodes, verdicts, true)) == ids + [last.id];
    }
  }

  lemma {:induction false} OrderedIsChosen(log: Log, nodes: seq<GraphNode>, verdicts: seq<Verdict>, selected: seq<string>)
    requires forall node | node in nodes :: node.id in selected <==> Actionable(log, node) && Keeps(verdicts, node.id)
    ensures Ordered(nodes, selected) == Chosen(log, nodes, verdicts, true)
  {
    if nodes != [] {
      var front, last := nodes[..|nodes| - 1], nodes[|nodes| - 1];
      assert nodes == front + [last];
      OrderedIsChosen(log, front, verdicts, selected);
      assert last in nodes;
    }
  }

  lemma SelectedIffKept(log: Log, graph: Graph, verdicts: seq<Verdict>, node: GraphNode)
    requires Distinct(NodeIds(graph.nodes)) && node in graph.nodes
    ensures node.id in NodeIds(Chosen(log, graph.nodes, verdicts, true)) <==>
      Actionable(log, node) && Keeps(verdicts, node.id)
  {
    var kept := Chosen(log, graph.nodes, verdicts, true);
    ChosenMembers(log, graph.nodes, verdicts, true);
    if node.id in NodeIds(kept) {
      var i :| 0 <= i < |kept| && NodeIds(kept)[i] == node.id;
      assert kept[i] in kept;
      var a :| 0 <= a < |graph.nodes| && graph.nodes[a] == kept[i];
      var b :| 0 <= b < |graph.nodes| && graph.nodes[b] == node;
      assert NodeIds(graph.nodes)[a] == NodeIds(graph.nodes)[b];
      assert a == b;
    }
    if Actionable(log, node) && Keeps(verdicts, node.id) {
      var i :| 0 <= i < |kept| && kept[i] == node;
      assert NodeIds(kept)[i] == node.id;
    }
  }

  lemma RetainedIsOrdered(log: Log, graph: Graph, verdicts: seq<Verdict>)
    requires Distinct(NodeIds(graph.nodes))
    ensures var retained := Chosen(log, graph.nodes, verdicts, true);
      Ordered(graph.nodes, NodeIds(retained)) == retained
  {
    var retained := Chosen(log, graph.nodes, verdicts, true);
    forall node | node in graph.nodes
      ensures node.id in NodeIds(retained) <==> Actionable(log, node) && Keeps(verdicts, node.id)
    {
      SelectedIffKept(log, graph, verdicts, node);
    }
    OrderedIsChosen(log, graph.nodes, verdicts, NodeIds(retained));
  }

  lemma RetainedIdsAreKnown(log: Log, graph: Graph, verdicts: seq<Verdict>)
    ensures forall id | id in NodeIds(Chosen(log, graph.nodes, verdicts, true)) :: id in NodeIds(graph.nodes)
  {
    var retained := Chosen(log, graph.nodes, verdicts, true);
    ChosenMembers(log, graph.nodes, verdicts, true);
    forall id | id in NodeIds(retained) ensures id in NodeIds(graph.nodes) {
      var i :| 0 <= i < |retained| && NodeIds(retained)[i] == id;
      assert retained[i] in retained;
      var k :| 0 <= k < |graph.nodes| && graph.nodes[k] == retained[i];
      assert NodeIds(graph.nodes)[k] == id;
    }
  }

  lemma RetainedHasSources(log: Log, nodes: seq<GraphNode>)
    requires nodes != [] && Actionable(log, nodes[|nodes| - 1])
    ensures SourceSteps(log, nodes) != []
  {
    var last := nodes[|nodes| - 1];
    assert Of(last, NodeTransitions(log, last)) != [];
  }

  /**
   An accepted, contract-valid review never meets the compiler's errors about
   selected nodes: they are known, distinct, in graph order, and hold distinct
   physical transitions.
   */
  lemma AcceptedReviewYieldsSources(log: Log, graph: Graph, review: CriticReview)
    requires GraphContract(log, graph) && DistinctEvents(log) && DistinctTransitions(log)
    requires VerdictContract(log, graph, review) && review.accept
    ensures var retained := Chosen(log, graph.nodes, review.verdicts, true);
      RuleSourceSteps(log, graph, NodeIds(retained)) == Ok(SourceSteps(log, retained))
  {
    var retained := Chosen(log, graph.nodes, review.verdicts, true);
    assert retained != [] by { VerdictLookupsSucceed(log, graph, review); }
    ChosenIdsAreDistinct(log, graph.nodes, review.verdicts);
    RetainedIdsAreKnown(log, graph, review.verdicts);
    RetainedIsOrdered(log, graph, review.verdicts);
    assert SourceSteps(log, retained) != [] by {
      ChosenMembers(log, graph.nodes, review.verdicts, true);
      assert retained[|retained| - 1] in retained;
      RetainedHasSources(log, retained);
    }
    SourcesAreDistinct(log, graph, NodeIds(retained));
  }

  lemma SourcesAreDistinct(log: Log, graph: Graph, selected: seq<string>)
    requires GraphContract(log, graph) && DistinctEvents(log) && DistinctTransitions(log)
    ensures Distinct(TransitionSeqs(SourceSteps(log, Ordered(graph.nodes, selected))))
  {
    var steps := SourceSteps(log, Ordered(graph.nodes, selected));
    SourceTransitions(log, Ordered(graph.nodes, selected));
    OrderedIsSubsequence(log, graph.nodes, selected);
    GraphCoversRun(log, graph);
    RecordedIsDistinct(log);
    SubsequenceIsDistinct(Transitions(steps), Recorded(log));
    forall i, j | 0 <= i < j < |steps| ensures TransitionSeqs(steps)[i] != TransitionSeqs(steps)[j] {
      assert Transitions(steps)[i].seqNo != Transitions(steps)[j].seqNo;
    }
  }

  /**
   A compiled rule is a selection of the run: `kept` lists the recorded
   transitions its steps were made of, in recorded order, each replayable, and
   step n is transition n of that list and nothing else.
   */
  lemma RuleIsSelectionOfRun(log: Log, graph: Graph, selected: seq<string>, keyword: string)
    returns (kept: seq<ObservedTransition>)
    requires GraphContract(log, graph) && DistinctEvents(log)
    requires Compile(log, graph, selected, keyword).Ok?
    ensures IsSubsequence(kept, Recorded(log))
    ensures var rule := Compile(log, graph, selected, keyword).value;
      && |rule.steps| == |kept| > 0
      && forall i :: 0 <= i < |kept| ==>
           && Replayable(kept[i], keyword)
           && rule.steps[i].number == i + 1
           && rule.steps[i].transitionSeq == kept[i].seqNo
           && rule.steps[i].before == kept[i].before
           && rule.steps[i].effect == ExpectedEffect(kept[i])
           && Ok(rule.steps[i].actions) == ToRuleActions(kept[i].actions, keyword)
  {
    var sources := RuleSourceSteps(log, graph, selected).value;
    kept := Transitions(sources);
    SourceTransitions(log, Ordered(graph.nodes, selected));
    OrderedIsSubsequence(log, graph.nodes, selected);
    GraphCoversRun(log, graph);
    CompilesIffReplayable(log, graph, selected, keyword);
    StepsCompileIff(sources, keyword);
  }

  // ------------------------------------------------------------------- step numbers

  function Range(from: nat, to: nat): seq<nat>
    requires from <= to
  {
    seq(to - from, i requires 0 <= i < to - from => from + i + 1)
  }

  function Numbers(nodes: seq<RuleNode>): seq<nat> {
    if nodes == [] then [] else Numbers(nodes[..|nodes| - 1]) + nodes[|nodes| - 1].steps
  }

  lemma {:induction false} StepsOfOthers(sources: seq<SourceStep>, block: seq<SourceStep>, id: string)
    requires forall i :: 0 <= i < |block| ==> block[i].node.id != id
    ensures StepsOf(sources + block, id) == StepsOf(sources, id)
  {
    if block == [] {
      assert sources + block == sources;
    } else {
      var n := |block| - 1;
      assert (sources + block)[..|sources + block| - 1] == sources + block[..n];
      StepsOfOthers(sources, block[..n], id);
    }
  }

  /** The steps of a node are a block of consecutive numbers. */
  lemma {:induction false} StepsOfBlock(sources: seq<SourceStep>, block: seq<SourceStep>, id: string)
    requires forall i :: 0 <= i < |sources| ==> sources[i].node.id != id
    requires forall i :: 0 <= i < |block| ==> block[i].node.id == id
    ensures StepsOf(sources + block, id) == Range(|sources|, |sources| + |block|)
  {
    if block == [] {
      assert [] + sources == sources && sources + block == sources;
      StepsOfOthers([], sources, id);
    } else {
      var n := |block| - 1;
      assert (sources + block)[..|sources + block| - 1] == sources + block[..n];
      StepsOfBlock(sources, block[..n], id);
    }
  }

  lemma {:induction false} RuleNodesOfOthers(nodes: seq<GraphNode>, sources: seq<SourceStep>, block: seq<SourceStep>)
    requires forall k, i :: 0 <= k < |nodes| && 0 <= i < |block| ==> block[i].node.id != nodes[k].id
    ensures RuleNodes(nodes, sources + block) == RuleNodes(nodes, sources)
  {
    if nodes != [] {
      RuleNodesOfOthers(nodes[..|nodes| - 1], sources, block);
      StepsOfOthers(sources, block, nodes[|nodes| - 1].id);
    }
  }

  lemma OrderedStep(log: Log, nodes: seq<GraphNode>, selected: seq<string>)
    requires nodes != []
    ensures var front, last := nodes[..|nodes| - 1], nodes[|nodes| - 1];
      SourceSteps(log, Ordered(nodes, selected)) == SourceSteps(log, Ordered(front, selected)) +
        if last.id in selected then Of(last, NodeTransitions(log, last)) else []
  {
    var front, last := nodes[..|nodes| - 1], nodes[|nodes| - 1];
    var o := Ordered(nodes, selected);
    if last.id in selected {
      assert o[..|o| - 1] == Ordered(front, selected) && o[|o| - 1] == last;
    } else {
      assert o == Ordered(front, selected);
    }
  }

  lemma {:induction false} SourceNode(log: Log, nodes: seq<GraphNode>, selected: seq<string>, i: nat) returns (k: nat)
    requires i < |SourceSteps(log, Ordered(nodes, selected))|
    ensures k < |nodes| && SourceSteps(log, Ordered(nodes, selected))[i].node == nodes[k]
    decreases |nodes|
  {
    if nodes != [] {
      var front := nodes[..|nodes| - 1];
      OrderedStep(log, nodes, selected);
      if i < |SourceSteps(log, Ordered(front, selected))| {
        k := SourceNode(log, front, selected, i);
      } else {
        k := |nodes| - 1;
      }
    }
  }

  /** The id of the last node occurs neither in the earlier nodes nor in their steps. */
  lemma LastNodeIsNew(log: Log, nodes: seq<GraphNode>, selected: seq<string>)
    requires nodes != [] && Distinct(NodeIds(nodes))
    ensures var front, last := nodes[..|nodes| - 1], nodes[|nodes| - 1];
      && Distinct(NodeIds(front))
      && (forall k :: 0 <= k < |front| ==> front[k].id != last.id)
      && NoneOf(SourceSteps(log, Ordered(front, selected)), last.id)
  {
    var n := |nodes| - 1;
    var front := nodes[..n];
    assert NodeIds(front) == NodeIds(nodes)[..n];
    forall k | 0 <= k < n ensures front[k].id != nodes[n].id {
      assert NodeIds(nodes)[k] != NodeIds(nodes)[n];
    }
    forall i | 0 <= i < |SourceSteps(log, Ordered(front, selected))|
      ensures SourceSteps(log, Ordered(front, selected))[i].node.id != nodes[n].id
    {
      var k := SourceNode(log, front, selected, i);
    }
  }

  ghost predicate NoneOf(sources: seq<SourceStep>, id: string) {
    forall i :: 0 <= i < |sources| ==> sources[i].node.id != id
  }

  ghost predicate AllOf(sources: seq<SourceStep>, id: string) {
    forall i :: 0 <= i < |sources| ==> sources[i].node.id == id
  }

  /** A block of steps of the last node takes the next numbers. */
  lemma NumbersWithBlock(nodes: seq<GraphNode>, before: seq<SourceStep>, block: seq<SourceStep>)
    requires nodes != [] && forall k :: 0 <= k < |nodes| - 1 ==> nodes[k].id != nodes[|nodes| - 1].id
    requires NoneOf(before, nodes[|nodes| - 1].id) && AllOf(block, nodes[|nodes| - 1].id)
    requires Numbers(RuleNodes(nodes[..|nodes| - 1], before)) == Range(0, |before|)
    ensures Numbers(RuleNodes(nodes, before + block)) == Range(0, |before + block|)
  {
    var front, last := nodes[..|nodes| - 1], nodes[|nodes| - 1];
    RuleNodesOfOthers(front, before, block);
    StepsOfBlock(before, block, last.id);
    NumbersOfLast(nodes, before + block, RuleNodes(front, before), |before|, |block|);
  }

  /** The step numbers of the nodes are 1..n, in order. */
  ghost predicate Consecutive(nodes: seq<GraphNode>, sources: seq<SourceStep>) {
    Numbers(RuleNodes(nodes, sources)) == Range(0, |sources|)
  }

  lemma NoNodesNoNumbers(log: Log, selected: seq<string>)
    ensures Consecutive([], SourceSteps(log, Ordered([], selected)))
  {}

  lemma LastNodeExtends(log: Log, nodes: seq<GraphNode>, selected: seq<string>)
    requires nodes != [] && Distinct(NodeIds(nodes))
    requires Consecutive(nodes[..|nodes| - 1], SourceSteps(log, Ordered(nodes[..|nodes| - 1], selected)))
    ensures Consecutive(nodes, SourceSteps(log, Ordered(nodes, selected)))
  {
    var front, last := nodes[..|nodes| - 1], nodes[|nodes| - 1];
    var block := if last.id in selected then Of(last, NodeTransitions(log, last)) else [];
    var before := SourceSteps(log, Ordered(front, selected));
    OrderedStep(log, nodes, selected);
    LastNodeIsNew(log, nodes, selected);
    NumbersWithBlock(nodes, before, block);
  }

  lemma {:induction false} NumbersAreConsecutive(log: Log, nodes: seq<GraphNode>, selected: seq<string>)
    requires Distinct(NodeIds(nodes))
    ensures Consecutive(nodes, SourceSteps(log, Ordered(nodes, selected)))
  {
    if nodes == [] {
      NoNodesNoNumbers(log, selected);
    } else {
      LastNodeIsNew(log, nodes, selected);
      NumbersAreConsecutive(log, nodes[..|nodes| - 1], selected);
      LastNodeExtends(log, nodes, selected);
    }
  }

  lemma RangeSplits(a: nat, b: nat)
    ensures Range(0, a + b) == Range(0, a) + Range(a, a + b)
  {}

  lemma NumbersAppend(nodes: seq<RuleNode>, node: RuleNode)
    ensures Numbers(nodes + [node]) == Numbers(nodes) + node.steps
  {
    assert (nodes + [node])[..|nodes|] == nodes;
  }

  lemma RuleNodesStep(nodes: seq<GraphNode>, sources: seq<SourceStep>)
    requires nodes != []
    ensures var last := nodes[|nodes| - 1];
      RuleNodes(nodes, sources) == RuleNodes(nodes[..|nodes| - 1], sources) +
        if StepsOf(sources, last.id) != [] then [RuleNode(last.id, last.seqs, StepsOf(sources, last.id))] else []
  {}

  /** With the numbers of the earlier nodes 1..a, and a + 1..a + b for the last node. */
  lemma NumbersOfLast(nodes: seq<GraphNode>, sources: seq<SourceStep>, earlier: seq<RuleNode>, a: nat, b: nat)
    requires nodes != [] && RuleNodes(nodes[..|nodes| - 1], sources) == earlier
    requires StepsOf(sources, nodes[|nodes| - 1].id) == Range(a, a + b) && Numbers(earlier) == Range(0, a)
    ensures Numbers(RuleNodes(nodes, sources)) == Range(0, a + b)
  {
    var last := nodes[|nodes| - 1];
    RuleNodesStep(nodes, sources);
    RangeSplits(a, b);
    NumbersAppend(earlier, RuleNode(last.id, last.seqs, Range(a, a + b)));
    if b == 0 { assert RuleNodes(nodes, sources) == earlier; }
  }

  /** The nodes of a compiled rule carry the step ids 1..n, in order, each exactly once. */
  lemma NodeStepsConcatenate(log: Log, graph: Graph, selected: seq<string>, keyword: string)
    requires GraphContract(log, graph) && Compile(log, graph, selected, keyword).Ok?
    ensures var rule := Compile(log, graph, selected, keyword).value;
      Numbers(rule.nodes) == Range(0, |rule.steps|)
  {
    NumbersAreConsecutive(log, graph.nodes, selected);
    StepsCompileIff(RuleSourceSteps(log, graph, selected).value, keyword);
  }

  // ------------------------------------------------------------------- what a step says

  /** A rule action is the recorded one; a filled slot replaces its text. */
  lemma RuleActionIsRecorded(recorded: ObservedAction, keyword: string, action: RuleAction)
    requires ToRuleAction(recorded, keyword) == Ok(action)
    ensures action.sourceSeq == recorded.sourceSeq && action.tool == recorded.detail.tool
    ensures action.hasTarget == recorded.detail.hasTarget && action.key == recorded.detail.key
    ensures action.slot == recorded.detail.slot
    ensures action.slot == "" ==> action.text == recorded.detail.text
    ensures action.slot != "" ==> action.text == "" && action.slot == SEARCH_KEYWORD
  {}

  /** A slot filled in some step is an input of the rule. */
  lemma FilledSlotIsInput(steps: seq<RuleStep>, i: nat, k: nat)
    requires i < |steps| && k < |steps[i].actions| && steps[i].actions[k].slot != ""
    ensures steps[i].actions[k].slot in Slots(steps)
  {
    assert steps[i] in steps && steps[i].actions[k] in steps[i].actions;
  }

  /**
   The actions of a compiled step are the recorded ones: same calls, keys and
   numbers; typed text stays, unless it fills an input slot, which then is an
   input of the rule.
   */
  lemma RuleActionsAreRecorded(
      log: Log, graph: Graph, selected: seq<string>, keyword: string, kept: seq<ObservedTransition>, i: nat, k: nat)
    requires Compile(log, graph, selected, keyword).Ok?
    requires kept == Transitions(RuleSourceSteps(log, graph, selected).value) && i < |kept| && k < |kept[i].actions|
    ensures var rule := Compile(log, graph, selected, keyword).value;
      var recorded := kept[i].actions[k];
      && i < |rule.steps| && |rule.steps[i].actions| == |kept[i].actions|
      && var action := rule.steps[i].actions[k];
      && action.sourceSeq == recorded.sourceSeq && action.tool == recorded.detail.tool
      && action.hasTarget == recorded.detail.hasTarget && action.key == recorded.detail.key
      && action.slot == recorded.detail.slot
      && (action.slot == "" ==> action.text == recorded.detail.text)
      && (action.slot != "" ==> action.text == "" && action.slot == SEARCH_KEYWORD && action.slot in rule.inputs)
  {
    var sources := RuleSourceSteps(log, graph, selected).value;
    StepsCompileIff(sources, keyword);
    ActionsCompileIff(kept[i].actions, keyword);
    var rule := Compile(log, graph, selected, keyword).value;
    assert ToRuleAction(kept[i].actions[k], keyword) == Ok(rule.steps[i].actions[k]);
    RuleActionIsRecorded(kept[i].actions[k], keyword, rule.steps[i].actions[k]);
    if rule.steps[i].actions[k].slot != "" { FilledSlotIsInput(rule.steps, i, k); }
  }
}
