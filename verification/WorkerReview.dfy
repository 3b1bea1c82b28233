/**
 Settling a reviewed detail page (agent/graph/worker_review.py,
 agent/runtime/job_capture.py).
 */
module WorkerReview {
  import opened Prelude
  import opened WorkerContracts
  import opened JobCardQueue

  function Identity(cfg: Cfg, c: Capture): (string, string) { (cfg.captureUrl(c.url), c.cardKey) }

  /** The newest capture of a page replaces the first one stored under the same identity. */
  function StoreCapture(cfg: Cfg, captures: seq<Capture>, capture: Capture): seq<Capture> {
    if captures == [] then [capture]
    else if Identity(cfg, captures[0]) == Identity(cfg, capture) then [capture] + captures[1..]
    else [captures[0]] + StoreCapture(cfg, captures[1..], capture)
  }

  predicate SamePage(cfg: Cfg, a: Capture, b: Capture) { Identity(cfg, a) == Identity(cfg, b) }

  /** Position of the first capture of the same page. */
  lemma {:induction false} StoreCaptureAt(cfg: Cfg, captures: seq<Capture>, capture: Capture, i: nat)
    requires i <= |captures|
    requires forall j :: 0 <= j < i ==> !SamePage(cfg, captures[j], capture)
    requires i < |captures| ==> SamePage(cfg, captures[i], capture)
    ensures StoreCapture(cfg, captures, capture) ==
      if i < |captures| then captures[i := capture] else captures + [capture]
  {
    if captures != [] {
      var rest := captures[1..];
      assert captures == [captures[0]] + rest;
      if i > 0 {
        assert forall j :: 0 <= j < i - 1 ==> rest[j] == captures[j + 1];
        StoreCaptureAt(cfg, rest, capture, i - 1);
      }
    }
  }

  method StoreJobCapture(cfg: Cfg, captures: seq<Capture>, capture: Capture) returns (updated: seq<Capture>)
    ensures updated == StoreCapture(cfg, captures, capture)
  {
    for i := 0 to |captures|
      invariant forall j :: 0 <= j < i ==> !SamePage(cfg, captures[j], capture)
    {
      if SamePage(cfg, captures[i], capture) {
        StoreCaptureAt(cfg, captures, capture, i);
        return captures[i := capture];
      }
    }
    StoreCaptureAt(cfg, captures, capture, |captures|);
    return captures + [capture];
  }

  ghost predicate DistinctCaptures(cfg: Cfg, captures: seq<Capture>) {
    forall i, j :: 0 <= i < j < |captures| ==> Identity(cfg, captures[i]) != Identity(cfg, captures[j])
  }

  ghost function Identities(cfg: Cfg, captures: seq<Capture>): set<(string, string)> {
    set c | c in captures :: Identity(cfg, c)
  }

  lemma IdentitiesCons(cfg: Cfg, head: Capture, rest: seq<Capture>)
    ensures Identities(cfg, [head] + rest) == {Identity(cfg, head)} + Identities(cfg, rest)
  {}

  lemma {:induction false} StoreCaptureAdds(cfg: Cfg, captures: seq<Capture>, capture: Capture)
    ensures var r := StoreCapture(cfg, captures, capture);
      && Identities(cfg, r) == Identities(cfg, captures) + {Identity(cfg, capture)}
      && capture in r && |captures| <= |r| <= |captures| + 1
  {
    if captures == [] {
      IdentitiesCons(cfg, capture, []);
      assert [capture] + [] == [capture];
    } else {
      var head, rest := captures[0], captures[1..];
      assert captures == [head] + rest;
      IdentitiesCons(cfg, head, rest);
      if Identity(cfg, head) == Identity(cfg, capture) {
        IdentitiesCons(cfg, capture, rest);
      } else {
        StoreCaptureAdds(cfg, rest, capture);
        IdentitiesCons(cfg, head, StoreCapture(cfg, rest, capture));
      }
    }
  }

  lemma DistinctCons(cfg: Cfg, head: Capture, rest: seq<Capture>)
    ensures DistinctCaptures(cfg, [head] + rest) <==>
      DistinctCaptures(cfg, rest) && Identity(cfg, head) !in Identities(cfg, rest)
  {
    var all := [head] + rest;
    assert forall k :: 0 <= k < |rest| ==> all[k + 1] == rest[k];
    if DistinctCaptures(cfg, rest) && Identity(cfg, head) !in Identities(cfg, rest) {
      forall i, j | 0 <= i < j < |all| ensures Identity(cfg, all[i]) != Identity(cfg, all[j]) {
        assert rest[j - 1] in rest && Identity(cfg, rest[j - 1]) in Identities(cfg, rest);
      }
    }
    if DistinctCaptures(cfg, all) {
      forall i, j | 0 <= i < j < |rest| ensures Identity(cfg, rest[i]) != Identity(cfg, rest[j]) {
        assert Identity(cfg, all[i + 1]) != Identity(cfg, all[j + 1]);
      }
      forall c | c in rest ensures Identity(cfg, c) != Identity(cfg, head) {
        var k :| 0 <= k < |rest| && rest[k] == c;
        assert Identity(cfg, all[0]) != Identity(cfg, all[k + 1]);
      }
    }
  }

  /** Re-completing a page never adds a second capture of it. */
  lemma {:induction false} StoreCaptureKeepsDistinct(cfg: Cfg, captures: seq<Capture>, capture: Capture)
    requires DistinctCaptures(cfg, captures)
    ensures var r := StoreCapture(cfg, captures, capture);
      && DistinctCaptures(cfg, r)
      && capture in r
      && Identities(cfg, r) == Identities(cfg, captures) + {Identity(cfg, capture)}
      && |captures| <= |r| <= |captures| + 1
  {
    StoreCaptureAdds(cfg, captures, capture);
    if captures != [] {
      var head, rest := captures[0], captures[1..];
      assert captures == [head] + rest;
      DistinctCons(cfg, head, rest);
      if Identity(cfg, head) == Identity(cfg, capture) {
        DistinctCons(cfg, capture, rest);
      } else {
        StoreCaptureKeepsDistinct(cfg, rest, capture);
        DistinctCons(cfg, head, StoreCapture(cfg, rest, capture));
      }
    }
  }

  /** `_queue_finished` */
  predicate QueueFinished(cfg: Cfg, queue: Queue, captured: nat) {
    || (cfg.intent.target > 0 && (captured >= cfg.intent.target || ResolvedCount(queue) >= cfg.intent.target))
    || ScopeComplete(queue, cfg.intent.mode, cfg.intent.target)
  }

  function Settled(cfg: Cfg, s: WorkerState, queue: Queue, captures: seq<Capture>, review: Review): WorkerState {
    var updated := s.(collection := Collection(queue, captures, None, Some(review)));
    if QueueFinished(cfg, queue, |captures|) then Finish(updated, ScopeReason(cfg.intent)) else updated
  }

  /** `review_node` */
  function ReviewDraft(cfg: Cfg, s: WorkerState, review: Review): WorkerState {
    match s.collection.draft
    case None => s
    case Some(draft) =>
      match review.status
      case CompleteReview =>
        Settled(cfg, s, SettleActive(s.collection.queue, Complete),
                StoreCapture(cfg, s.collection.captures, Capture(draft.url, draft.cardKey)), review)
      case NeedsMore =>
        s.(collection := s.collection.(draft := None, lastReview := Some(review)))
      case _ =>
        Settled(cfg, s, SettleActive(s.collection.queue, Reject), s.collection.captures, review)
  }

  /**
   A review clears the draft; it completes the active card and stores the page,
   leaves both alone, or rejects the card, and ends the run exactly when the
   new queue and captures finish it.
   */
  lemma ReviewOutcomes(cfg: Cfg, s: WorkerState, review: Review)
    requires s.collection.draft.Some? && WellKept(s.collection.queue) && !s.lifecycle.finished
    ensures var r := ReviewDraft(cfg, s, review);
      var queue, draft := s.collection.queue, s.collection.draft.value;
      var settled :=
        match review.status
        case CompleteReview => Done
        case NeedsMore => Active
        case _ => Rejected;
      && r.collection.draft.None? && r.collection.lastReview == Some(review)
      && r.collection.queue ==
           (if HasActive(queue) then queue[ActiveIndex(queue) := queue[ActiveIndex(queue)].(status := settled)] else queue)
      && r.collection.captures ==
           (if review.status == CompleteReview
            then StoreCapture(cfg, s.collection.captures, Capture(draft.url, draft.cardKey)) else s.collection.captures)
      && (r.lifecycle.finished <==>
            review.status != NeedsMore && QueueFinished(cfg, r.collection.queue, |r.collection.captures|))
  {
    SettleOne(s.collection.queue, Complete);
    SettleOne(s.collection.queue, Reject);
    if HasActive(s.collection.queue) {
      var k := ActiveIndex(s.collection.queue);
      assert s.collection.queue[k := s.collection.queue[k].(status := Active)] == s.collection.queue;
    }
  }
}
