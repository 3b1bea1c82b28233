/**
 From a recorded run to an experience rule: the execution-graph contract
 (agent/application/recipe_execution_graph_service.py), the critic's verdicts
 (agent/application/recipe_candidate_review_service.py) and the compiler
 (agent/application/experience_rule_compiler.py).

 Step ids `step-n` are modelled by n; texts are modelled after normalisation.
 */
module RuleCompiler {
  import opened Prelude
  import opened ExecutionRecord

  datatype GraphNode = GraphNode(id: string, seqs: seq<nat>)

  datatype Edge = Edge(source: string, target: string)

  datatype Graph = Graph(nodes: seq<GraphNode>, edges: seq<Edge>, unassigned: seq<nat>)

  datatype Verdict = Verdict(nodeId: string, keep: bool)

  datatype CriticReview = CriticReview(accept: bool, verdicts: seq<Verdict>)

  // --------------------------------------------------------------- graph contract

  function EventSeqs(log: Log): seq<nat> { seq(|log|, i requires 0 <= i < |log| => log[i].seqNo) }

  function Assigned(nodes: seq<GraphNode>): seq<nat> {
    if nodes == [] then [] else Assigned(nodes[..|nodes| - 1]) + nodes[|nodes| - 1].seqs
  }

  function NodeIds(nodes: seq<GraphNode>): seq<string> {
    seq(|nodes|, i requires 0 <= i < |nodes| => nodes[i].id)
  }

  ghost predicate EdgeOk(nodes: seq<GraphNode>, edge: Edge) {
    edge.source in NodeIds(nodes) && edge.target in NodeIds(nodes) && edge.source != edge.target
  }

  ghost predicate GraphContract(log: Log, graph: Graph) {
    && Assigned(graph.nodes) == EventSeqs(log)
    && graph.unassigned == []
    && Distinct(NodeIds(graph.nodes))
    && (forall edge | edge in graph.edges :: EdgeOk(graph.nodes, edge))
  }

  datatype GraphError = Coverage | Unassigned | DuplicateNodes | UnknownEdge(edge: Edge) | SelfEdge(edge: Edge)

  /** `_graph_contract_errors`: no error exactly when the contract holds. */
  method GraphContractErrors(log: Log, graph: Graph) returns (errors: seq<GraphError>)
    ensures errors == [] <==> GraphContract(log, graph)
  {
    errors := [];
    if Assigned(graph.nodes) != EventSeqs(log) { errors := errors + [Coverage]; }
    if graph.unassigned != [] { errors := errors + [Unassigned]; }
    var ids := NodeIds(graph.nodes);
    if exists i, j | 0 <= i < j < |ids| :: ids[i] == ids[j] { errors := errors + [DuplicateNodes]; }
    ghost var nodesOk := errors == [];
    assert nodesOk <==> Assigned(graph.nodes) == EventSeqs(log) && graph.unassigned == [] && Distinct(ids);
    for k := 0 to |graph.edges|
      invariant errors == [] <==> nodesOk && forall j :: 0 <= j < k ==> EdgeOk(graph.nodes, graph.edges[j])
    {
      var edge := graph.edges[k];
      if edge.source !in ids || edge.target !in ids { errors := errors + [UnknownEdge(edge)]; }
      if edge.source == edge.target { errors := errors + [SelfEdge(edge)]; }
    }
  }

  // ----------------------------------------------------------- transitions of nodes

  /** `{event.seq: event}`: the last event of a number. */
  function EventAt(log: Log, n: nat): (e: Option<Event>)
    ensures e.Some? ==> e.value in log && e.value.seqNo == n
  {
    if log == [] then None
    else if log[|log| - 1].seqNo == n then Some(log[|log| - 1])
    else EventAt(log[..|log| - 1], n)
  }

  /** The transitions recorded under the given event numbers, in that order. */
  function TransitionsAt(log: Log, seqs: seq<nat>): seq<ObservedTransition> {
    if seqs == [] then []
    else
      TransitionsAt(log, seqs[..|seqs| - 1]) +
      match EventAt(log, seqs[|seqs| - 1])
      case Some(e) => (if e.transition.Some? then [e.transition.value] else [])
      case None => []
  }

  /** `graph_node_transitions` */
  function NodeTransitions(log: Log, node: GraphNode): seq<ObservedTransition> { TransitionsAt(log, node.seqs) }

  predicate Actionable(log: Log, node: GraphNode) { NodeTransitions(log, node) != [] }

  /** The transitions of a run, in the order they were recorded. */
  function Recorded(log: Log): seq<ObservedTransition> {
    if log == [] then []
    else
      Recorded(log[..|log| - 1]) +
      if log[|log| - 1].transition.Some? then [log[|log| - 1].transition.value] else []
  }

  ghost predicate DistinctEvents(log: Log) {
    forall i, j :: 0 <= i < j < |log| ==> log[i].seqNo != log[j].seqNo
  }

  ghost predicate DistinctTransitions(log: Log) {
    forall i, j :: 0 <= i < j < |log| && log[i].transition.Some? && log[j].transition.Some? ==>
      log[i].transition.value.seqNo != log[j].transition.value.seqNo
  }

  /** Logs of worker runs qualify. */
  lemma WorkerLogsQualify(log: Log)
    requires Gapless(log) && TransitionsOrdered(log)
    ensures DistinctEvents(log) && DistinctTransitions(log)
  {}

  lemma {:induction false} TransitionsAtConcat(log: Log, a: seq<nat>, b: seq<nat>)
    ensures TransitionsAt(log, a + b) == TransitionsAt(log, a) + TransitionsAt(log, b)
  {
    if b == [] {
      assert a + b == a;
    } else {
      var n := |b| - 1;
      assert (a + b)[..|a + b| - 1] == a + b[..n];
      TransitionsAtConcat(log, a, b[..n]);
    }
  }

  lemma {:induction false} EventAtOwn(log: Log, i: nat)
    requires DistinctEvents(log) && i < |log|
    ensures EventAt(log, log[i].seqNo) == Some(log[i])
    decreases |log|
  {
    if i < |log| - 1 { EventAtOwn(log[..|log| - 1], i); }
  }

  lemma {:induction false} TransitionsAtPrefix(log: Log, n: nat)
    requires DistinctEvents(log) && n <= |log|
    ensures TransitionsAt(log, EventSeqs(log)[..n]) == Recorded(log[..n])
  {
    if n > 0 {
      TransitionsAtPrefix(log, n - 1);
      EventAtOwn(log, n - 1);
      assert EventSeqs(log)[..n][..n - 1] == EventSeqs(log)[..n - 1];
      assert log[..n][..n - 1] == log[..n - 1];
    }
  }

  /** All transitions of the given nodes, in node order. */
  function AllTransitions(log: Log, nodes: seq<GraphNode>): seq<ObservedTransition> {
    if nodes == [] then [] else AllTransitions(log, nodes[..|nodes| - 1]) + NodeTransitions(log, nodes[|nodes| - 1])
  }

  lemma {:induction false} AllTransitionsAreAssigned(log: Log, nodes: seq<GraphNode>)
    ensures AllTransitions(log, nodes) == TransitionsAt(log, Assigned(nodes))
  {
    if nodes != [] {
      AllTransitionsAreAssigned(log, nodes[..|nodes| - 1]);
      TransitionsAtConcat(log, Assigned(nodes[..|nodes| - 1]), nodes[|nodes| - 1].seqs);
    }
  }

  /** A contract-valid graph is a reading of the run: its nodes hold the recorded transitions, in order. */
  lemma GraphCoversRun(log: Log, graph: Graph)
    requires GraphContract(log, graph) && DistinctEvents(log)
    ensures AllTransitions(log, graph.nodes) == Recorded(log)
  {
    AllTransitionsAreAssigned(log, graph.nodes);
    TransitionsAtPrefix(log, |log|);
    assert EventSeqs(log)[..|log|] == EventSeqs(log) && log[..|log|] == log;
  }

  // --------------------------------------------------------------------- verdicts

  function VerdictCount(verdicts: seq<Verdict>, id: string): nat {
    if verdicts == [] then 0
    else VerdictCount(verdicts[..|verdicts| - 1], id) + if verdicts[|verdicts| - 1].nodeId == id then 1 else 0
  }

  ghost predicate Required(log: Log, graph: Graph, id: string) {
    exists i :: 0 <= i < |graph.nodes| && graph.nodes[i].id == id && Actionable(log, graph.nodes[i])
  }

  ghost predicate VerdictContract(log: Log, graph: Graph, review: CriticReview) {
    && (forall id :: Required(log, graph, id) ==> VerdictCount(review.verdicts, id) == 1)
    && (forall v | v in review.verdicts :: Required(log, graph, v.nodeId))
    && (review.accept ==> exists i :: 0 <= i < |review.verdicts| && review.verdicts[i].keep)
  }

  /** The ids that need a verdict. */
  method RequiredIds(log: Log, graph: Graph) returns (required: set<string>)
    ensures forall id :: id in required <==> Required(log, graph, id)
  {
    required := {};
    for i := 0 to |graph.nodes|
      invariant forall id :: id in required <==>
        exists k :: 0 <= k < i && graph.nodes[k].id == id && Actionable(log, graph.nodes[k])
    {
      if Actionable(log, graph.nodes[i]) { required := required + {graph.nodes[i].id}; }
    }
  }

  /** The verdicts per node. */
  method CountVerdicts(verdicts: seq<Verdict>) returns (counts: map<string, nat>)
    ensures forall id :: VerdictCount(verdicts, id) == if id in counts then counts[id] else 0
    ensures forall id :: id in counts ==> counts[id] > 0
  {
    counts := map[];
    for i := 0 to |verdicts|
      invariant forall id :: VerdictCount(verdicts[..i], id) == if id in counts then counts[id] else 0
      invariant forall id :: id in counts ==> counts[id] > 0
    {
      assert verdicts[..i + 1][..i] == verdicts[..i];
      var id := verdicts[i].nodeId;
      counts := counts[id := (if id in counts then counts[id] else 0) + 1];
    }
    assert verdicts[..|verdicts|] == verdicts;
  }

  /** `_verdict_contract_errors`: true exactly when it reports nothing. */
  method VerdictsMeetContract(log: Log, graph: Graph, review: CriticReview) returns (ok: bool)
    ensures ok <==> VerdictContract(log, graph, review)
  {
    var required := RequiredIds(log, graph);
    var counts := CountVerdicts(review.verdicts);
    var each := forall id | id in required :: id in counts && counts[id] == 1;
    var expected := forall id | id in counts :: id in required;
    var keeps := exists i | 0 <= i < |review.verdicts| :: review.verdicts[i].keep;
    assert each <==> forall id :: Required(log, graph, id) ==> VerdictCount(review.verdicts, id) == 1;
    assert expected <==> forall v | v in review.verdicts :: Required(log, graph, v.nodeId) by {
      CountedAreMembers(review.verdicts, counts);
    }
    ok := each && expected && (review.accept ==> keeps);
  }

  lemma CountedAreMembers(verdicts: seq<Verdict>, counts: map<string, nat>)
    requires forall id :: VerdictCount(verdicts, id) == if id in counts then counts[id] else 0
    requires forall id :: id in counts ==> counts[id] > 0
    ensures forall v | v in verdicts :: v.nodeId in counts
    ensures forall id | id in counts :: exists v :: v in verdicts && v.nodeId == id
  {
    forall v | v in verdicts ensures v.nodeId in counts { MemberCounts(verdicts, v); }
    forall id | id in counts ensures exists v :: v in verdicts && v.nodeId == id {
      CountedVerdictIsFound(verdicts, id);
      FoundVerdictNames(verdicts, id);
    }
  }

  lemma {:induction false} FoundVerdictNames(verdicts: seq<Verdict>, id: string)
    ensures FindVerdict(verdicts, id).Some? ==> FindVerdict(verdicts, id).value.nodeId == id
  {
    if verdicts != [] { FoundVerdictNames(verdicts[..|verdicts| - 1], id); }
  }

  function FindVerdict(verdicts: seq<Verdict>, id: string): Option<Verdict> {
    if verdicts == [] then None
    else if verdicts[|verdicts| - 1].nodeId == id then Some(verdicts[|verdicts| - 1])
    else FindVerdict(verdicts[..|verdicts| - 1], id)
  }

  predicate Keeps(verdicts: seq<Verdict>, id: string) {
    FindVerdict(verdicts, id).Some? && FindVerdict(verdicts, id).value.keep
  }

  /** The actionable nodes whose verdict is `keep`, in graph order. */
  function Chosen(log: Log, nodes: seq<GraphNode>, verdicts: seq<Verdict>, keep: bool): seq<GraphNode> {
    if nodes == [] then []
    else
      var last := nodes[|nodes| - 1];
      Chosen(log, nodes[..|nodes| - 1], verdicts, keep) +
      if Actionable(log, last) && Keeps(verdicts, last.id) == keep then [last] else []
  }

  /** `_selected_graph_nodes`; None is the KeyError of a node without verdict. */
  method SelectedGraphNodes(log: Log, graph: Graph, verdicts: seq<Verdict>)
    returns (r: Option<(seq<GraphNode>, seq<GraphNode>)>)
    ensures r.None? <==> exists node :: node in graph.nodes && Actionable(log, node) && FindVerdict(verdicts, node.id).None?
    ensures r.Some? ==>
      r.value.0 == Chosen(log, graph.nodes, verdicts, true) && r.value.1 == Chosen(log, graph.nodes, verdicts, false)
  {
    var retained: seq<GraphNode>, pruned: seq<GraphNode> := [], [];
    for i := 0 to |graph.nodes|
      invariant forall k :: 0 <= k < i ==>
        Actionable(log, graph.nodes[k]) ==> FindVerdict(verdicts, graph.nodes[k].id).Some?
      invariant retained == Chosen(log, graph.nodes[..i], verdicts, true)
      invariant pruned == Chosen(log, graph.nodes[..i], verdicts, false)
    {
      assert graph.nodes[..i + 1][..i] == graph.nodes[..i];
      var node := graph.nodes[i];
      if !Actionable(log, node) { continue; }
      var verdict := FindVerdict(verdicts, node.id);
      if verdict.None? { return None; }
      if verdict.value.keep { retained := retained + [node]; } else { pruned := pruned + [node]; }
    }
    assert graph.nodes[..|graph.nodes|] == graph.nodes;
    return Some((retained, pruned));
  }

  lemma {:induction false} CountedVerdictIsFound(verdicts: seq<Verdict>, id: string)
    ensures VerdictCount(verdicts, id) > 0 <==> FindVerdict(verdicts, id).Some?
    ensures FindVerdict(verdicts, id).Some? ==> FindVerdict(verdicts, id).value in verdicts
  {
    if verdicts != [] {
      CountedVerdictIsFound(verdicts[..|verdicts| - 1], id);
    }
  }

  lemma {:induction false} OneVerdictIsTheVerdict(verdicts: seq<Verdict>, v: Verdict)
    requires v in verdicts && VerdictCount(verdicts, v.nodeId) == 1
    ensures FindVerdict(verdicts, v.nodeId) == Some(v)
  {
    var front, last := verdicts[..|verdicts| - 1], verdicts[|verdicts| - 1];
    assert verdicts == front + [last];
    if last.nodeId == v.nodeId {
      CountedVerdictIsFound(front, v.nodeId);
      if v in front { MemberCounts(front, v); }
    } else {
      OneVerdictIsTheVerdict(front, v);
    }
  }

  lemma {:induction false} MemberCounts(verdicts: seq<Verdict>, v: Verdict)
    requires v in verdicts
    ensures VerdictCount(verdicts, v.nodeId) > 0
  {
    var front, last := verdicts[..|verdicts| - 1], verdicts[|verdicts| - 1];
    assert verdicts == front + [last];
    if last.nodeId != v.nodeId { MemberCounts(front, v); }
  }

  /** Under the verdict contract the lookup of a node's verdict cannot fail, and an accepted review keeps a node. */
  lemma VerdictLookupsSucceed(log: Log, graph: Graph, review: CriticReview)
    requires VerdictContract(log, graph, review)
    ensures forall node | node in graph.nodes && Actionable(log, node) :: FindVerdict(review.verdicts, node.id).Some?
    ensures review.accept ==> Chosen(log, graph.nodes, review.verdicts, true) != []
  {
    forall node | node in graph.nodes && Actionable(log, node) ensures FindVerdict(review.verdicts, node.id).Some? {
      assert Required(log, graph, node.id);
      CountedVerdictIsFound(review.verdicts, node.id);
    }
    if review.accept {
      var i :| 0 <= i < |review.verdicts| && review.verdicts[i].keep;
      var v := review.verdicts[i];
      assert Required(log, graph, v.nodeId);
      OneVerdictIsTheVerdict(review.verdicts, v);
      var k :| 0 <= k < |graph.nodes| && graph.nodes[k].id == v.nodeId && Actionable(log, graph.nodes[k]);
      ChosenMembers(log, graph.nodes, review.verdicts, true);
      assert graph.nodes[k] in Chosen(log, graph.nodes, review.verdicts, true);
    }
  }

  lemma {:induction false} ChosenMembers(log: Log, nodes: seq<GraphNode>, verdicts: seq<Verdict>, keep: bool)
    ensures forall node :: node in Chosen(log, nodes, verdicts, keep) <==>
      node in nodes && Actionable(log, node) && Keeps(verdicts, node.id) == keep
  {
    if nodes != [] {
      ChosenMembers(log, nodes[..|nodes| - 1], verdicts, keep);
      assert nodes == nodes[..|nodes| - 1] + [nodes[|nodes| - 1]];
    }
  }

  /** Retained and pruned nodes partition the actionable ones. */
  lemma RetainedAndPrunedPartition(log: Log, graph: Graph, verdicts: seq<Verdict>)
    ensures var retained := Chosen(log, graph.nodes, verdicts, true);
      var pruned := Chosen(log, graph.nodes, verdicts, false);
      && (forall node :: node in graph.nodes && Actionable(log, node) <==> node in retained || node in pruned)
      && (forall node :: !(node in retained && node in pruned))
  {
    ChosenMembers(log, graph.nodes, verdicts, true);
    ChosenMembers(log, graph.nodes, verdicts, false);
  }
}
