/**
 What a worker run leaves behind: one event per executed call, and the screen
 transitions attached to them (shared/schema/execution_record_schema.py,
 shared/schema/feedback_schema.py, agent/runtime/worker_contracts.py).
 The worker graph appends to this log; the learning pipeline reads it.
 */
module ExecutionRecord {
  import opened Prelude

  datatype ToolName =
    | ClickMarker | TypeInMarker | Scroll | PressKey | OpenBrowser | CloseCurrentTab
    | ReviewJobDetail | GoBack | SetJobCardQueue | SwitchTab | FinishTask

  datatype Role = NoRole | Home | Form | ErrorPage | Search | JobDetail | OtherRole

  datatype Screen = Screen(urlTemplate: string, role: Role)

  /** The recorded details of a physical action, apart from its sequence number. */
  datatype ActionDetail = ActionDetail(
    tool: ToolName,
    hasTarget: bool,      // an on-screen target was recorded
    roiSignature: bool,   // with a region-of-interest signature
    roiPhash: bool,       // whose perceptual hash is present
    key: string,
    text: string,
    slotName: string,     // the input slot named by the call itself
    slot: string,         // the resolved parameter slot, "" when there is none
    sensitive: bool)

  datatype ObservedAction = ObservedAction(sourceSeq: nat, detail: ActionDetail)

  datatype ResultStatus = NoResult | Success | ErrorResult | SkippedResult

  datatype Evidence = Evidence(resultStatus: ResultStatus, ready: bool)

  datatype ObservedTransition = ObservedTransition(
    seqNo: nat,
    before: Screen,
    actions: seq<ObservedAction>,
    after: Screen,
    evidence: Option<Evidence>)

  datatype Event = Event(
    seqNo: nat,
    tool: Option<ToolName>,   // None for the record of a missing request
    status: ResultStatus,
    candidate: Option<ObservedAction>,
    before: Screen,
    transition: Option<ObservedTransition>)

  type Log = seq<Event>

  // --------------------------------------------------------- attaching a transition

  function SelectedEvents(log: Log, seqs: seq<nat>): Log {
    if log == [] then []
    else
      SelectedEvents(log[..|log| - 1], seqs) +
      if log[|log| - 1].seqNo in seqs then [log[|log| - 1]] else []
  }

  function RecordedActions(log: Log): seq<ObservedAction> {
    if log == [] then []
    else
      RecordedActions(log[..|log| - 1]) +
      if log[|log| - 1].candidate.Some? then [log[|log| - 1].candidate.value] else []
  }

  function GroupStatus(log: Log): ResultStatus {
    if log != [] && (forall e | e in log :: e.status == Success) then Success
    else if exists e | e in log :: e.status == ErrorResult then ErrorResult
    else if exists e | e in log :: e.status == SkippedResult then SkippedResult
    else NoResult
  }

  function FirstBefore(log: Log): Screen {
    if log == [] then Screen("", NoRole)
    else if log[0].candidate.Some? then log[0].before
    else FirstBefore(log[1..])
  }

  /** `attach_action_transition`: the event of the last call of the group gets the transition. */
  function AttachTransition(log: Log, seqs: seq<nat>, actionSeq: nat, after: Screen, ready: bool): (r: Log)
    ensures |r| == |log|
    ensures forall i :: 0 <= i < |log| ==> r[i].(transition := None) == log[i].(transition := None)
    ensures forall i :: 0 <= i < |log| && log[i].seqNo != actionSeq ==> r[i] == log[i]
    ensures forall i :: 0 <= i < |log| && r[i] != log[i] ==>
      seqs != [] && r[i].transition.Some? && r[i].transition.value.seqNo == seqs[0]
  {
    var selected := SelectedEvents(log, seqs);
    var actions := RecordedActions(selected);
    if seqs == [] || actions == [] then log
    else
      var observed := ObservedTransition(
        seqs[0], FirstBefore(selected), actions, after, Some(Evidence(GroupStatus(selected), ready)));
      seq(|log|, i requires 0 <= i < |log| =>
        if log[i].seqNo == actionSeq then log[i].(transition := Some(observed)) else log[i])
  }

  // ------------------------------------------------------------------- invariants

  /** Event i has sequence number i. */
  ghost predicate Gapless(log: Log) {
    forall i :: 0 <= i < |log| ==> log[i].seqNo == i
  }

  /** Transitions are numbered in log order, each by the first call of its own group. */
  ghost predicate TransitionsOrdered(log: Log) {
    && (forall i :: 0 <= i < |log| && log[i].transition.Some? ==> log[i].transition.value.seqNo <= i)
    && (forall i, j :: 0 <= i < j < |log| && log[i].transition.Some? && log[j].transition.Some? ==>
          i < log[j].transition.value.seqNo)
  }

  /** A group of calls that no attached transition overlaps yet. */
  ghost predicate OpenGroup(log: Log, seqs: seq<nat>, actionSeq: nat) {
    && seqs != []
    && seqs[0] <= actionSeq < |log|
    && (forall i :: 0 <= i < |log| && log[i].transition.Some? ==> i < seqs[0])
  }

  lemma AttachKeepsOrder(log: Log, seqs: seq<nat>, actionSeq: nat, after: Screen, ready: bool)
    requires Gapless(log) && TransitionsOrdered(log) && OpenGroup(log, seqs, actionSeq)
    ensures var r := AttachTransition(log, seqs, actionSeq, after, ready); Gapless(r) && TransitionsOrdered(r)
  {
    var r := AttachTransition(log, seqs, actionSeq, after, ready);
    assert forall i :: 0 <= i < |log| ==> r[i].seqNo == r[i].(transition := None).seqNo;
    forall i, j | 0 <= i < j < |r| && r[i].transition.Some? && r[j].transition.Some?
      ensures i < r[j].transition.value.seqNo
    {
      assert log[i].transition.Some? || i == actionSeq;
      assert log[j].transition.Some? || j == actionSeq;
    }
  }
}
