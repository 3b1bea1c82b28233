/**
 The queue of job cards that the vision worker fills from a search page and
 then visits one card at a time (agent/runtime/job_card_queue.py), and the
 marking of cards the database already holds
 (agent/application/duplicate_job_service.py).

 A card's `queue_id` is the text `card-n`; the model keeps `n`, and 0 for a
 missing id.  `titleKey` and `companyKey` are the normalised match texts of the
 title and the company, the only view of them that identity tests use.
 */
module JobCardQueue {
  import opened Prelude

  datatype Status = Pending | Active | Done | Skipped | Rejected

  datatype Card = Card(
    queueId: nat,
    status: Status,
    title: string,
    titleKey: string,
    companyKey: string,
    markerId: int,
    jobId: Option<int>)

  /** One entry of the `cards` argument of the queue tool. */
  datatype RawCard = RawCard(markerId: int, title: string, titleKey: string, companyKey: string)

  type Queue = seq<Card>

  // ---------------------------------------------------------------- identity

  /** Title and company agree, a missing company agreeing with any. */
  predicate SameCard(a: Card, b: Card) {
    && a.titleKey != ""
    && a.titleKey == b.titleKey
    && (a.companyKey == "" || b.companyKey == "" || a.companyKey == b.companyKey)
  }

  predicate IsKnown(card: Card, known: Queue) {
    exists i :: 0 <= i < |known| && SameCard(card, known[i])
  }

  // ----------------------------------------------------------- normalisation

  function NormalizedCard(raw: RawCard, markers: set<int>, position: nat): Option<Card> {
    if raw.markerId !in markers || raw.title == "" then None
    else Some(Card(position + 1, Pending, raw.title, raw.titleKey, raw.companyKey, raw.markerId, None))
  }

  function AddCard(queue: Queue, raw: RawCard, markers: set<int>): Queue {
    match NormalizedCard(raw, markers, |queue|)
    case None => queue
    case Some(card) => if IsKnown(card, queue) then queue else queue + [card]
  }

  function AddCards(queue: Queue, raws: seq<RawCard>, markers: set<int>): Queue
    decreases |raws|
  {
    if raws == [] then queue
    else AddCards(AddCard(queue, raws[0], markers), raws[1..], markers)
  }

  /** The cards that survive re-reading the list: everything but the pending ones. */
  function Kept(queue: Queue): Queue {
    if queue == [] then []
    else
      var rest := Kept(queue[..|queue| - 1]);
      var last := queue[|queue| - 1];
      if last.status == Pending then rest else rest + [last]
  }

  function Normalized(queue: Queue, raws: seq<RawCard>, markers: set<int>): Queue {
    AddCards(Kept(queue), raws, markers)
  }

  method KeepSettledCards(queue: Queue) returns (kept: Queue)
    ensures kept == Kept(queue)
  {
    kept := [];
    for i := 0 to |queue|
      invariant kept == Kept(queue[..i])
    {
      assert queue[..i + 1][..i] == queue[..i];
      if queue[i].status != Pending {
        kept := kept + [queue[i]];
      }
    }
    assert queue[..|queue|] == queue;
  }

  /** `job_card_is_known` */
  method JobCardIsKnown(card: Card, knownCards: Queue) returns (known: bool)
    ensures known == IsKnown(card, knownCards)
  {
    if card.titleKey == "" { return false; }
    for k := 0 to |knownCards|
      invariant forall j :: 0 <= j < k ==> !SameCard(card, knownCards[j])
    {
      if card.titleKey != knownCards[k].titleKey { continue; }
      if card.companyKey == "" || knownCards[k].companyKey == "" || card.companyKey == knownCards[k].companyKey {
        assert SameCard(card, knownCards[k]);
        return true;
      }
    }
    return false;
  }

  method NormalizeJobCardQueue(queue: Queue, raws: seq<RawCard>, markers: set<int>)
    returns (result: Queue)
    ensures result == Normalized(queue, raws, markers)
  {
    result := KeepSettledCards(queue);
    for i := 0 to |raws|
      invariant AddCards(result, raws[i..], markers) == Normalized(queue, raws, markers)
    {
      assert raws[i..][1..] == raws[i + 1..];
      var card := NormalizedCard(raws[i], markers, |result|);
      if card.None? { continue; }
      var known := JobCardIsKnown(card.value, result);
      if known { continue; }
      result := result + [card.value];
    }
  }

  // -------------------------------------------------- cards already in the DB

  predicate IsPending(card: Card) { card.status == Pending }

  function PendingCount(queue: Queue): nat {
    if queue == [] then 0
    else PendingCount(queue[..|queue| - 1]) + if IsPending(queue[|queue| - 1]) then 1 else 0
  }

  /** The card at position `i` after matching, `ids` being aligned with the pending cards. */
  function Marked(queue: Queue, ids: seq<Option<int>>, i: nat): Card
    requires i < |queue|
  {
    var n := PendingCount(queue[..i]);
    if IsPending(queue[i]) && n < |ids| && ids[n].Some?
    then queue[i].(status := Skipped, jobId := ids[n])
    else queue[i]
  }

  function MarkExisting(queue: Queue, ids: seq<Option<int>>): (r: Queue)
    ensures |r| == |queue|
  {
    seq(|queue|, i requires 0 <= i < |queue| => Marked(queue, ids, i))
  }

  /** `traced` lists the queue ids of the cards that were recognised. */
  method MarkExistingJobCards(queue: Queue, ids: seq<Option<int>>)
    returns (updated: Queue, traced: seq<nat>)
    ensures updated == MarkExisting(queue, ids)
    ensures |traced| == |Recognised(queue, ids)|
    ensures forall k :: 0 <= k < |traced| ==> traced[k] == Recognised(queue, ids)[k].queueId
  {
    updated, traced := [], [];
    var next := 0;
    for i := 0 to |queue|
      invariant |updated| == i && next == PendingCount(queue[..i])
      invariant forall k :: 0 <= k < i ==> updated[k] == Marked(queue, ids, k)
      invariant |traced| == |Recognised(queue[..i], ids)|
      invariant forall k :: 0 <= k < |traced| ==> traced[k] == Recognised(queue[..i], ids)[k].queueId
    {
      assert queue[..i + 1][..i] == queue[..i];
      var item := queue[i];
      if IsPending(item) {
        var jobId := if next < |ids| then ids[next] else None;
        next := next + 1;
        if jobId.Some? {
          item := item.(status := Skipped, jobId := jobId);
          traced := traced + [item.queueId];
        }
      }
      updated := updated + [item];
    }
    assert queue[..|queue|] == queue;
  }

  /** The pending cards whose aligned lookup found a stored posting, in queue order. */
  function Recognised(queue: Queue, ids: seq<Option<int>>): Queue {
    if queue == [] then []
    else
      var front := queue[..|queue| - 1];
      var last := queue[|queue| - 1];
      var n := PendingCount(front);
      Recognised(front, ids) + if IsPending(last) && n < |ids| && ids[n].Some? then [last] else []
  }

  // ------------------------------------------------------ activation, outcome

  predicate HasActive(queue: Queue) {
    exists i :: 0 <= i < |queue| && queue[i].status == Active
  }

  function ActiveIndex(queue: Queue): (i: nat)
    requires HasActive(queue)
    ensures i < |queue| && queue[i].status == Active
    ensures forall j :: 0 <= j < i ==> queue[j].status != Active
  {
    if queue[0].status == Active then 0 else 1 + ActiveIndex(queue[1..])
  }

  predicate Clickable(queue: Queue, id: nat, i: int) {
    0 <= i < |queue| && queue[i].status == Pending && queue[i].queueId == id
  }

  function Activated(queue: Queue, id: nat): (r: Queue)
    ensures |r| == |queue|
    ensures forall i :: 0 <= i < |queue| ==>
      r[i] == if id != 0 && Clickable(queue, id, i) && (forall j :: 0 <= j < i ==> !Clickable(queue, id, j))
              then queue[i].(status := Active) else queue[i]
  {
    seq(|queue|, i requires 0 <= i < |queue| =>
      if id != 0 && Clickable(queue, id, i) && (forall j :: 0 <= j < i ==> !Clickable(queue, id, j))
      then queue[i].(status := Active) else queue[i])
  }

  method ActivateJobCard(queue: Queue, id: nat) returns (updated: Queue)
    ensures updated == Activated(queue, id)
  {
    if id == 0 { return queue; }
    updated := [];
    var activated := false;
    for i := 0 to |queue|
      invariant |updated| == i
      invariant activated <==> exists j :: 0 <= j < i && Clickable(queue, id, j)
      invariant forall k :: 0 <= k < i ==> updated[k] == Activated(queue, id)[k]
    {
      var item := queue[i];
      if !activated && item.status == Pending && id == item.queueId {
        assert Clickable(queue, id, i);
        item := item.(status := Active);
        activated := true;
      }
      updated := updated + [item];
    }
  }

  /** How the detail page of the active card ended. */
  datatype Outcome = Complete | SkipExisting(jobId: Option<int>) | Reject

  function Settle(card: Card, outcome: Outcome): Card {
    match outcome
    case Complete => card.(status := Done)
    case SkipExisting(jobId) => card.(status := Skipped, jobId := if jobId.Some? then jobId else card.jobId)
    case Reject => card.(status := Rejected)
  }

  function SettleActive(queue: Queue, outcome: Outcome): (r: Queue)
    ensures |r| == |queue|
  {
    if !HasActive(queue) then queue
    else
      var id := queue[ActiveIndex(queue)].queueId;
      seq(|queue|, i requires 0 <= i < |queue| =>
        if id != 0 && queue[i].queueId == id then Settle(queue[i], outcome) else queue[i])
  }

  /** The common loop of `complete_`, `skip_` and `reject_active_job_card`. */
  method SettleActiveJobCard(queue: Queue, outcome: Outcome) returns (updated: Queue)
    ensures updated == SettleActive(queue, outcome)
  {
    if !HasActive(queue) { return queue; }
    var id := queue[ActiveIndex(queue)].queueId;
    updated := [];
    for i := 0 to |queue|
      invariant |updated| == i
      invariant forall k :: 0 <= k < i ==> updated[k] == SettleActive(queue, outcome)[k]
    {
      var item := queue[i];
      if id != 0 && item.queueId == id { item := Settle(item, outcome); }
      updated := updated + [item];
    }
  }

  // ------------------------------------------------------------------ queries

  predicate Unresolved(queue: Queue) {
    exists i :: 0 <= i < |queue| && queue[i].status in {Pending, Active}
  }

  predicate HasPending(queue: Queue) {
    exists i :: 0 <= i < |queue| && queue[i].status == Pending
  }

  function FirstPending(queue: Queue): (i: nat)
    requires HasPending(queue)
    ensures i < |queue| && queue[i].status == Pending
    ensures forall j :: 0 <= j < i ==> queue[j].status != Pending
  {
    if queue[0].status == Pending then 0 else 1 + FirstPending(queue[1..])
  }

  /** Collected in this run, or known to be stored under a positive database id. */
  predicate IsResolved(card: Card) {
    card.status == Done || (card.status == Skipped && card.jobId.Some? && card.jobId.value > 0)
  }

  function ResolvedCount(queue: Queue): nat {
    if queue == [] then 0
    else ResolvedCount(queue[..|queue| - 1]) + if IsResolved(queue[|queue| - 1]) then 1 else 0
  }

  datatype CountMode = Explicit | VisibleAll | Unspecified

  predicate ScopeComplete(queue: Queue, mode: CountMode, target: nat) {
    && queue != []
    && !Unresolved(queue)
    && (mode == VisibleAll || (target > 0 && ResolvedCount(queue) >= target))
  }

  // --------------------------------------------------------------- invariants

  /** The card at position i carries the id `card-(i+1)`. */
  ghost predicate Sequential(queue: Queue) {
    forall i :: 0 <= i < |queue| ==> queue[i].queueId == i + 1
  }

  ghost predicate AtMostOneActive(queue: Queue) {
    forall i, j :: 0 <= i < j < |queue| ==> !(queue[i].status == Active && queue[j].status == Active)
  }

  ghost predicate NoSameCards(queue: Queue) {
    forall i, j :: 0 <= i < j < |queue| ==> !SameCard(queue[i], queue[j])
  }

  ghost predicate WellKept(queue: Queue) {
    Sequential(queue) && AtMostOneActive(queue) && NoSameCards(queue)
  }

  /** The moves a single graph step may make with one card. */
  predicate StatusStep(a: Status, b: Status) {
    || a == b
    || (a == Pending && b in {Active, Skipped})
    || (a == Active && b in {Done, Skipped, Rejected})
  }

  /** Reachability under `StatusStep`. */
  predicate StatusReaches(a: Status, b: Status) {
    a == b || a == Pending || (a == Active && b != Pending)
  }

  predicate SameIdentity(a: Card, b: Card) {
    a.queueId == b.queueId && a.title == b.title && a.titleKey == b.titleKey && a.companyKey == b.companyKey
  }

  predicate CardStep(a: Card, b: Card) {
    SameIdentity(a, b) && StatusStep(a.status, b.status) && (a.status in {Done, Skipped, Rejected} ==> a == b)
  }

  predicate CardReaches(a: Card, b: Card) {
    SameIdentity(a, b) && StatusReaches(a.status, b.status) && (a.status in {Done, Skipped, Rejected} ==> a == b)
  }

  /** One step of a run: no card is lost or renamed, and each moves at most one edge. */
  ghost predicate QueueStep(q: Queue, r: Queue) {
    |q| <= |r| && forall i :: 0 <= i < |q| ==> CardStep(q[i], r[i])
  }

  ghost predicate QueueReaches(q: Queue, r: Queue) {
    |q| <= |r| && forall i :: 0 <= i < |q| ==> CardReaches(q[i], r[i])
  }

  lemma QueueStepReaches(q: Queue, r: Queue)
    requires QueueStep(q, r)
    ensures QueueReaches(q, r)
  {
    forall i | 0 <= i < |q| ensures CardReaches(q[i], r[i]) { assert CardStep(q[i], r[i]); }
  }

  /** Cards that were collected or recognised stay so: the count never falls. */
  lemma {:induction false} ResolvedCountMonotone(q: Queue, r: Queue)
    requires QueueReaches(q, r)
    ensures ResolvedCount(q) <= ResolvedCount(r)
    decreases |r|
  {
    if |r| > 0 {
      var r' := r[..|r| - 1];
      if |q| == |r| {
        var n := |q| - 1;
        assert CardReaches(q[n], r[n]);
        assert forall i :: 0 <= i < n ==> q[..n][i] == q[i] && r'[i] == r[i];
        ResolvedCountMonotone(q[..n], r');
      } else {
        assert forall i :: 0 <= i < |q| ==> r'[i] == r[i];
        ResolvedCountMonotone(q, r');
      }
    }
  }

  // ------------------------------------------------------------ normalisation

  lemma {:induction false} KeptOfResolved(queue: Queue)
    requires forall i :: 0 <= i < |queue| ==> queue[i].status != Pending
    ensures Kept(queue) == queue
  {
    if queue != [] {
      var n := |queue| - 1;
      assert forall i :: 0 <= i < n ==> queue[..n][i] == queue[i];
      KeptOfResolved(queue[..n]);
    }
  }

  lemma AddCardKeeps(queue: Queue, raw: RawCard, markers: set<int>)
    ensures queue <= AddCard(queue, raw, markers)
    ensures Sequential(queue) ==> Sequential(AddCard(queue, raw, markers))
    ensures NoSameCards(queue) ==> NoSameCards(AddCard(queue, raw, markers))
    ensures AtMostOneActive(queue) ==> AtMostOneActive(AddCard(queue, raw, markers))
    ensures forall i :: |queue| <= i < |AddCard(queue, raw, markers)| ==> AddCard(queue, raw, markers)[i].status == Pending
  {
    var r := AddCard(queue, raw, markers);
    if NoSameCards(queue) {
      forall i, j | 0 <= i < j < |r| ensures !SameCard(r[i], r[j]) {
        if j == |queue| { assert !SameCard(r[j], queue[i]); }
      }
    }
  }

  lemma {:induction false} AddCardsKeeps(queue: Queue, raws: seq<RawCard>, markers: set<int>)
    ensures queue <= AddCards(queue, raws, markers)
    ensures Sequential(queue) ==> Sequential(AddCards(queue, raws, markers))
    ensures NoSameCards(queue) ==> NoSameCards(AddCards(queue, raws, markers))
    ensures AtMostOneActive(queue) ==> AtMostOneActive(AddCards(queue, raws, markers))
    ensures forall i :: |queue| <= i < |AddCards(queue, raws, markers)| ==> AddCards(queue, raws, markers)[i].status == Pending
    decreases |raws|
  {
    if raws != [] {
      AddCardKeeps(queue, raws[0], markers);
      AddCardsKeeps(AddCard(queue, raws[0], markers), raws[1..], markers);
    }
  }

  /** Re-reading the list once every card is settled only appends. */
  lemma NormalizeResolvedQueue(queue: Queue, raws: seq<RawCard>, markers: set<int>)
    requires !Unresolved(queue)
    ensures queue <= Normalized(queue, raws, markers)
    ensures WellKept(queue) ==> WellKept(Normalized(queue, raws, markers))
    ensures forall i :: |queue| <= i < |Normalized(queue, raws, markers)| ==> Normalized(queue, raws, markers)[i].status == Pending
  {
    KeptOfResolved(queue);
    AddCardsKeeps(queue, raws, markers);
  }

  predicate Readable(raw: RawCard, markers: set<int>) { raw.markerId in markers && raw.title != "" }

  /** The card is listed: under its title and company, or as the entry made from it. */
  ghost predicate Listed(queue: Queue, raw: RawCard) {
    exists i :: 0 <= i < |queue| && queue[i].titleKey == raw.titleKey &&
      (queue[i].companyKey == "" || raw.companyKey == "" || queue[i].companyKey == raw.companyKey)
  }

  lemma ListedStays(queue: Queue, longer: Queue, raw: RawCard)
    requires queue <= longer && Listed(queue, raw)
    ensures Listed(longer, raw)
  {
    var i :| 0 <= i < |queue| && queue[i].titleKey == raw.titleKey &&
      (queue[i].companyKey == "" || raw.companyKey == "" || queue[i].companyKey == raw.companyKey);
    assert longer[i] == queue[i];
  }

  lemma AddCardLists(queue: Queue, raw: RawCard, markers: set<int>)
    requires Readable(raw, markers)
    ensures Listed(AddCard(queue, raw, markers), raw)
  {
    var r := AddCard(queue, raw, markers);
    var card := NormalizedCard(raw, markers, |queue|).value;
    if IsKnown(card, queue) {
      var i :| 0 <= i < |queue| && SameCard(card, queue[i]);
      assert r[i].titleKey == raw.titleKey;
    } else {
      assert r[|queue|] == card;
    }
  }

  /** No readable card of the screen is missing from the re-read queue. */
  lemma {:induction false} ReadableCardsAreListed(queue: Queue, raws: seq<RawCard>, markers: set<int>, k: nat)
    requires k < |raws| && Readable(raws[k], markers)
    ensures Listed(AddCards(queue, raws, markers), raws[k])
    decreases |raws|
  {
    var next := AddCard(queue, raws[0], markers);
    if k == 0 {
      AddCardLists(queue, raws[0], markers);
      AddCardsKeeps(next, raws[1..], markers);
      ListedStays(next, AddCards(queue, raws, markers), raws[0]);
    } else {
      ReadableCardsAreListed(next, raws[1..], markers, k - 1);
    }
  }

  /** A re-read queue is the settled cards, in order, then new pending cards of the screen, each readable. */
  lemma {:induction false} AddedCardsAreReadable(queue: Queue, raws: seq<RawCard>, markers: set<int>, i: nat)
    requires |queue| <= i < |AddCards(queue, raws, markers)|
    ensures var card := AddCards(queue, raws, markers)[i];
      && card.status == Pending && card.queueId == i + 1 && card.jobId.None?
      && exists k :: 0 <= k < |raws| && Readable(raws[k], markers) && card.title == raws[k].title &&
           card.titleKey == raws[k].titleKey && card.markerId == raws[k].markerId
    decreases |raws|
  {
    var next := AddCard(queue, raws[0], markers);
    AddCardsKeeps(next, raws[1..], markers);
    if i < |next| {
      assert AddCards(queue, raws, markers)[i] == next[i];
    } else {
      AddedCardsAreReadable(next, raws[1..], markers, i);
      var k :| 0 <= k < |raws[1..]| && Readable(raws[1..][k], markers) &&
        AddCards(queue, raws, markers)[i].title == raws[1..][k].title &&
        AddCards(queue, raws, markers)[i].titleKey == raws[1..][k].titleKey &&
        AddCards(queue, raws, markers)[i].markerId == raws[1..][k].markerId;
      assert raws[k + 1] == raws[1..][k];
    }
  }

  ghost predicate PendingIsSuffix(queue: Queue) {
    forall i, j :: 0 <= i < j < |queue| && queue[i].status == Pending ==> queue[j].status == Pending
  }

  lemma {:induction false} KeptLosesPending(queue: Queue)
    ensures |Kept(queue)| <= |queue|
    ensures |Kept(queue)| == |queue| ==> forall i :: 0 <= i < |queue| ==> queue[i].status != Pending
  {
    if queue != [] {
      var front := queue[..|queue| - 1];
      KeptLosesPending(front);
      if |Kept(queue)| == |queue| {
        assert forall i :: 0 <= i < |front| ==> front[i] == queue[i];
      }
    }
  }

  lemma {:induction false} KeptOfPendingSuffix(queue: Queue)
    requires PendingIsSuffix(queue)
    ensures Kept(queue) <= queue
  {
    if queue != [] {
      var n := |queue| - 1;
      if queue[n].status == Pending {
        assert forall i :: 0 <= i < n ==> queue[..n][i] == queue[i];
        KeptOfPendingSuffix(queue[..n]);
      } else {
        assert forall i :: 0 <= i < n && queue[i].status == Pending ==> queue[n].status == Pending;
        KeptOfResolved(queue);
      }
    }
  }

  lemma {:induction false} SequentialKeptHasPendingSuffix(queue: Queue)
    requires Sequential(queue) && Sequential(Kept(queue))
    ensures PendingIsSuffix(queue)
  {
    if queue != [] {
      var n := |queue| - 1;
      var front := queue[..n];
      var kept := Kept(front);
      KeptLosesPending(front);
      if queue[n].status == Pending {
        SequentialKeptHasPendingSuffix(front);
        assert forall i :: 0 <= i < n ==> front[i] == queue[i];
      } else {
        assert Kept(queue)[|kept|] == queue[n];
        assert |kept| == n;
        assert forall i :: 0 <= i < n ==> queue[i] == front[i] && front[i].status != Pending;
      }
    }
  }

  /**
   Ids stay `card-1 .. card-n` across a re-read exactly when the pending cards
   are a suffix of the queue; the tool gate, which waits for a resolved queue,
   is one way to guarantee that.
   */
  lemma NormalizeKeepsIdsIff(queue: Queue, raws: seq<RawCard>, markers: set<int>)
    requires Sequential(queue)
    ensures Sequential(Normalized(queue, raws, markers)) <==> PendingIsSuffix(queue)
  {
    AddCardsKeeps(Kept(queue), raws, markers);
    var r := Normalized(queue, raws, markers);
    if Sequential(r) {
      assert forall i :: 0 <= i < |Kept(queue)| ==> r[i] == Kept(queue)[i];
      SequentialKeptHasPendingSuffix(queue);
    }
    if PendingIsSuffix(queue) {
      KeptOfPendingSuffix(queue);
    }
  }

  /** The collision without the gate: one kept card named card-2, then a new card-2. */
  lemma UngatedNormalizeCollides(queue: Queue, raw: RawCard)
    requires |queue| == 2 && Sequential(queue)
    requires queue[0].status == Pending && queue[1].status == Skipped
    requires raw.title != "" && raw.titleKey != queue[1].titleKey
    ensures var r := Normalized(queue, [raw], {raw.markerId}); |r| == 2 && r[0].queueId == r[1].queueId == 2
  {
    assert queue[..1][..0] == [];
    assert queue == [queue[0], queue[1]] && queue[..1] == [queue[0]];
    assert Kept(queue[..1]) == [];
    assert Kept(queue) == [queue[1]];
    var raws := [raw];
    assert raws[1..] == [];
    assert AddCards(AddCard([queue[1]], raw, {raw.markerId}), [], {raw.markerId}) == AddCard([queue[1]], raw, {raw.markerId});
  }

  // ------------------------------------------------------ one-card operations

  lemma MarkExistingKeeps(queue: Queue, ids: seq<Option<int>>)
    ensures QueueStep(queue, MarkExisting(queue, ids))
    ensures WellKept(queue) ==> WellKept(MarkExisting(queue, ids))
    ensures HasActive(MarkExisting(queue, ids)) ==> HasActive(queue)
  {
    var r := MarkExisting(queue, ids);
    forall i | 0 <= i < |queue|
      ensures r[i] == Marked(queue, ids, i) && CardStep(queue[i], r[i]) && (r[i].status == Active ==> queue[i].status == Active)
    {}
    if WellKept(queue) {
      forall i, j | 0 <= i < j < |r| ensures !SameCard(r[i], r[j]) {
        assert !SameCard(queue[i], queue[j]);
      }
    }
  }

  /**
   The lookup results are consumed in step with the pending cards: the n-th
   pending card gets the n-th answer, whatever lies between them.
   */
  lemma MarkExistingAligned(queue: Queue, ids: seq<Option<int>>, i: nat)
    requires i < |queue| && |ids| == PendingCount(queue)
    ensures queue[i].status != Pending ==> MarkExisting(queue, ids)[i] == queue[i]
    ensures queue[i].status == Pending ==> PendingCount(queue[..i]) < |ids|
    ensures queue[i].status == Pending ==>
      var found := ids[PendingCount(queue[..i])];
      MarkExisting(queue, ids)[i] == if found.Some? then queue[i].(status := Skipped, jobId := found) else queue[i]
  {
    PendingCountPrefix(queue, i);
  }

  lemma {:induction false} PendingCountPrefix(queue: Queue, i: nat)
    requires i < |queue|
    ensures PendingCount(queue[..i]) + (if IsPending(queue[i]) then 1 else 0) <= PendingCount(queue)
    decreases |queue|
  {
    var front := queue[..|queue| - 1];
    if i < |front| {
      PendingCountPrefix(front, i);
      assert front[..i] == queue[..i];
    } else {
      assert queue[..i] == front;
    }
  }

  /** With unique ids, a click activates exactly the card it names. */
  lemma ActivateOne(queue: Queue, k: nat)
    requires WellKept(queue) && k < |queue| && queue[k].status == Pending
    ensures Activated(queue, k + 1) == queue[k := queue[k].(status := Active)]
    ensures !HasActive(queue) ==> WellKept(Activated(queue, k + 1))
    ensures QueueStep(queue, Activated(queue, k + 1))
  {
    var r := Activated(queue, k + 1);
    assert r == queue[k := queue[k].(status := Active)];
    forall i, j | 0 <= i < j < |r| ensures !SameCard(r[i], r[j]) {
      assert !SameCard(queue[i], queue[j]);
    }
  }

  /** Completing, skipping or rejecting changes the active card and nothing else. */
  lemma SettleOne(queue: Queue, outcome: Outcome)
    requires WellKept(queue)
    ensures !HasActive(queue) ==> SettleActive(queue, outcome) == queue
    ensures HasActive(queue) ==>
      var k := ActiveIndex(queue);
      SettleActive(queue, outcome) == queue[k := Settle(queue[k], outcome)]
    ensures !HasActive(SettleActive(queue, outcome))
    ensures WellKept(SettleActive(queue, outcome))
    ensures QueueStep(queue, SettleActive(queue, outcome))
  {
    var r := SettleActive(queue, outcome);
    if HasActive(queue) {
      var k := ActiveIndex(queue);
      assert r == queue[k := Settle(queue[k], outcome)];
      forall i | 0 <= i < |r| ensures r[i].status != Active {
        if i != k { assert i < k || (k < i && !(queue[k].status == Active && queue[i].status == Active)); }
      }
      forall i, j | 0 <= i < j < |r| ensures !SameCard(r[i], r[j]) {
        assert !SameCard(queue[i], queue[j]);
      }
    }
  }
}
