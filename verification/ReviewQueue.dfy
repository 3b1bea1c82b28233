/**
 The review queue under any interleaving of several workers, restarts and
 repeated commits.  One `Track` follows one run id; every store operation acts
 on the rows of different runs independently.
 */
module ReviewQueue {
  import opened Prelude
  import opened CandidateStore

  /** A claim handed to a worker: the commit generation it belongs to, and the attempt number. */
  datatype Token = Token(gen: nat, attempt: nat)

  datatype Track = Track(
    row: Row,
    gen: nat,              // commits so far
    given: seq<nat>,       // attempt numbers handed out since the last commit
    held: set<Token>,      // claims whose worker has not ended yet
    recoveries: nat,       // interrupted reviews put back since the last commit
    stale: nat,            // claims that were held when the last commit happened
    staleRetries: nat,     // of those, the ones that put this row back for another try
    retried: set<nat>)     // attempts since the last commit that did so

  type System = map<nat, Track>

  datatype Event =
    | Commit(id: nat, now: int)
    | Enqueue(id: nat)
    | Recover
    | Claim(id: nat, now: int)
    | Settle(id: nat, token: Token, accepted: bool)
    | Fail(id: nat, token: Token, now: int)
    | Die(id: nat, token: Token)

  function RowsOf(sys: System): Rows { map id | id in sys :: sys[id].row }

  // ------------------------------------------------------------------------ steps

  function CommitTrack(t: Track): Track {
    Track(Row(CONTRACT_VERSION, Recorded, 0, None, t.row.createdAt), t.gen + 1, [], t.held, 0, |t.held|, 0, {})
  }

  function NewTrack(now: int): Track {
    Track(Row(CONTRACT_VERSION, Recorded, 0, None, now), 1, [], {}, 0, 0, 0, {})
  }

  function RecoverTrack(t: Track): Track {
    t.(row := RecoveredRow(t.row), recoveries := t.recoveries + if RecoveredRow(t.row) != t.row then 1 else 0)
  }

  function ClaimTrack(t: Track): Track {
    var row := ClaimedRow(t.row);
    t.(row := row, given := t.given + [row.attempts], held := t.held + {Token(t.gen, row.attempts)})
  }

  /** `process_one` after an exception: defer, terminally when its own attempt was the last allowed. */
  function FailTrack(t: Track, max: nat, token: Token, retryAt: int): Track {
    var row := DeferredRow(t.row, token.attempt >= max, retryAt);
    var retries := row.status == PendingReview && t.row.status == Reviewing;
    t.(row := row, held := t.held - {token},
       staleRetries := t.staleRetries + if retries && token.gen != t.gen then 1 else 0,
       retried := if retries && token.gen == t.gen then t.retried + {token.attempt} else t.retried)
  }

  ghost predicate Possible(sys: System, e: Event) {
    match e
    case Commit(_, _) => true
    case Enqueue(id) => id in sys
    case Recover => true
    case Claim(id, now) => Oldest(RowsOf(sys), now, None, id) || Oldest(RowsOf(sys), now, Some(id), id)
    case Settle(id, token, _) => id in sys && token in sys[id].held
    case Fail(id, token, _) => id in sys && token in sys[id].held
    case Die(id, token) => id in sys && token in sys[id].held
  }

  function After(sys: System, max: nat, retryDelay: nat, e: Event): System {
    match e
    case Commit(id, now) => sys[id := if id in sys then CommitTrack(sys[id]) else NewTrack(now)]
    case Enqueue(id) => if id in sys then sys[id := sys[id].(row := EnqueuedRow(sys[id].row))] else sys
    case Recover => map id | id in sys :: RecoverTrack(sys[id])
    case Claim(id, _) => if id in sys then sys[id := ClaimTrack(sys[id])] else sys
    case Settle(id, _, accepted) => if id in sys then sys[id := sys[id].(row := SettledRow(sys[id].row, accepted))] else sys
    case Fail(id, token, now) => if id in sys then sys[id := FailTrack(sys[id], max, token, now + retryDelay)] else sys
    case Die(id, token) => if id in sys then sys[id := sys[id].(held := sys[id].held - {token})] else sys
  }

  /** `run` is a history of the system from an empty store. */
  ghost predicate IsRun(max: nat, retryDelay: nat, run: seq<System>, events: seq<Event>) {
    && |run| == |events| + 1
    && run[0] == map[]
    && forall i :: 0 <= i < |events| ==>
         Possible(run[i], events[i]) && run[i + 1] == After(run[i], max, retryDelay, events[i])
  }

  // -------------------------------------------------------------------- invariant

  ghost function HeldStale(t: Track): set<Token> { set token | token in t.held && token.gen != t.gen }

  ghost predicate TrackOk(t: Track, max: nat) {
    && max >= 1
    && Current(t.row)
    && (t.row.status == Recorded ==> t.row.attempts == 0)
    && |t.given| == t.row.attempts
    && (forall i :: 0 <= i < |t.given| ==> t.given[i] == i + 1)
    && (forall token | token in t.held :: token.gen <= t.gen && token.attempt >= 1)
    && (forall token | token in t.held && token.gen == t.gen :: token.attempt <= t.row.attempts)
    && (forall a | a in t.retried :: 1 <= a < max && Token(t.gen, a) !in t.held && a <= t.row.attempts)
    && t.staleRetries + |HeldStale(t)| <= t.stale
    && t.row.attempts + (if t.row.status == PendingReview then 1 else 0) <=
         1 + t.recoveries + t.staleRetries + |t.retried|
  }

  ghost predicate SystemOk(sys: System, max: nat) {
    forall id | id in sys :: TrackOk(sys[id], max)
  }

  lemma SubsetIsSmaller<T>(a: set<T>, b: set<T>)
    requires a <= b
    ensures |a| <= |b|
  {
    assert b == a + (b - a);
  }

  ghost function UpTo(max: nat): set<nat> {
    if max <= 1 then {} else UpTo(max - 1) + {max - 1}
  }

  lemma {:induction false} UpToSize(max: nat)
    ensures forall a :: a in UpTo(max) <==> 1 <= a < max
    ensures max >= 1 ==> |UpTo(max)| == max - 1
  {
    if max >= 2 { UpToSize(max - 1); }
  }

  lemma CommitKeeps(t: Track, max: nat)
    requires TrackOk(t, max)
    ensures TrackOk(CommitTrack(t), max)
  {
    SubsetIsSmaller(HeldStale(CommitTrack(t)), t.held);
  }

  lemma NewTrackOk(now: int, max: nat)
    requires max >= 1
    ensures TrackOk(NewTrack(now), max)
  {
    assert HeldStale(NewTrack(now)) == {};
  }

  lemma EnqueueKeeps(t: Track, max: nat)
    requires TrackOk(t, max)
    ensures TrackOk(t.(row := EnqueuedRow(t.row)), max)
  {
    assert HeldStale(t.(row := EnqueuedRow(t.row))) == HeldStale(t);
  }

  lemma RecoverKeeps(t: Track, max: nat)
    requires TrackOk(t, max)
    ensures TrackOk(RecoverTrack(t), max)
  {
    assert HeldStale(RecoverTrack(t)) == HeldStale(t);
  }

  lemma ClaimKeeps(t: Track, max: nat)
    requires TrackOk(t, max) && t.row.status == PendingReview
    ensures TrackOk(ClaimTrack(t), max)
    ensures Token(t.gen, t.row.attempts + 1) !in t.held
  {
    assert HeldStale(ClaimTrack(t)) == HeldStale(t);
  }

  lemma SettleKeeps(t: Track, max: nat, accepted: bool)
    requires TrackOk(t, max)
    ensures TrackOk(t.(row := SettledRow(t.row, accepted)), max)
  {
    assert HeldStale(t.(row := SettledRow(t.row, accepted))) == HeldStale(t);
  }

  lemma FailKeeps(t: Track, max: nat, token: Token, retryAt: int)
    requires TrackOk(t, max) && token in t.held
    ensures TrackOk(FailTrack(t, max, token, retryAt), max)
  {
    var r := FailTrack(t, max, token, retryAt);
    if token.gen == t.gen {
      assert HeldStale(r) == HeldStale(t);
      assert token.attempt !in t.retried;
    } else {
      assert HeldStale(r) == HeldStale(t) - {token};
    }
  }

  lemma DieKeeps(t: Track, max: nat, token: Token)
    requires TrackOk(t, max)
    ensures TrackOk(t.(held := t.held - {token}), max)
  {
    SubsetIsSmaller(HeldStale(t.(held := t.held - {token})), HeldStale(t));
  }

  /** A claim only takes a pending row. */
  lemma ClaimTakesPending(sys: System, e: Event)
    requires Possible(sys, e) && e.Claim?
    ensures e.id in sys && sys[e.id].row.status == PendingReview
  {
    assert Eligible(RowsOf(sys)[e.id], e.now);
  }

  lemma UpdateKeeps(sys: System, max: nat, id: nat, t: Track)
    requires SystemOk(sys, max) && TrackOk(t, max)
    ensures SystemOk(sys[id := t], max)
  {}

  lemma RecoverAllKeeps(sys: System, max: nat)
    requires SystemOk(sys, max)
    ensures SystemOk(map id | id in sys :: RecoverTrack(sys[id]), max)
  {
    forall id | id in sys ensures TrackOk(RecoverTrack(sys[id]), max) { RecoverKeeps(sys[id], max); }
  }

  lemma CommitStep(sys: System, max: nat, id: nat, now: int)
    requires SystemOk(sys, max) && max >= 1
    ensures TrackOk(if id in sys then CommitTrack(sys[id]) else NewTrack(now), max)
  {
    if id in sys { CommitKeeps(sys[id], max); } else { NewTrackOk(now, max); }
  }

  lemma ClaimStep(sys: System, max: nat, e: Event)
    requires SystemOk(sys, max) && Possible(sys, e) && e.Claim?
    ensures e.id in sys && TrackOk(ClaimTrack(sys[e.id]), max)
  {
    ClaimTakesPending(sys, e);
    ClaimKeeps(sys[e.id], max);
  }

  /** The track an event leaves at its run. */
  function TrackAfter(sys: System, max: nat, retryDelay: nat, e: Event): Track
    requires !e.Recover? && (e.id in sys || e.Commit?)
  {
    match e
    case Commit(id, now) => if id in sys then CommitTrack(sys[id]) else NewTrack(now)
    case Enqueue(id) => sys[id].(row := EnqueuedRow(sys[id].row))
    case Claim(id, _) => ClaimTrack(sys[id])
    case Settle(id, _, accepted) => sys[id].(row := SettledRow(sys[id].row, accepted))
    case Fail(id, token, now) => FailTrack(sys[id], max, token, now + retryDelay)
    case Die(id, token) => sys[id].(held := sys[id].held - {token})
  }

  lemma PossibleKnows(sys: System, e: Event)
    requires Possible(sys, e) && !e.Recover?
    ensures e.id in sys || e.Commit?
  {
    if e.Claim? { ClaimTakesPending(sys, e); }
  }

  lemma AfterIsUpdate(sys: System, max: nat, retryDelay: nat, e: Event)
    requires !e.Recover? && (e.id in sys || e.Commit?)
    ensures After(sys, max, retryDelay, e) == sys[e.id := TrackAfter(sys, max, retryDelay, e)]
  {}

  /** The track an event concerns stays well-formed. */
  lemma TrackStepKeeps(sys: System, max: nat, retryDelay: nat, e: Event)
    requires SystemOk(sys, max) && Possible(sys, e) && max >= 1 && !e.Recover? && (e.id in sys || e.Commit?)
    ensures TrackOk(TrackAfter(sys, max, retryDelay, e), max)
  {
    match e
    case Commit(id, now) => CommitStep(sys, max, id, now);
    case Enqueue(id) => EnqueueKeeps(sys[id], max);
    case Claim(id, now) => ClaimStep(sys, max, e);
    case Settle(id, _, accepted) => SettleKeeps(sys[id], max, accepted);
    case Fail(id, token, now) => FailKeeps(sys[id], max, token, now + retryDelay);
    case Die(id, token) => DieKeeps(sys[id], max, token);
  }

  lemma StepKeeps(sys: System, max: nat, retryDelay: nat, e: Event)
    requires SystemOk(sys, max) && Possible(sys, e) && max >= 1
    ensures SystemOk(After(sys, max, retryDelay, e), max)
  {
    if e.Recover? {
      RecoverAllKeeps(sys, max);
    } else {
      PossibleKnows(sys, e);
      TrackStepKeeps(sys, max, retryDelay, e);
      AfterIsUpdate(sys, max, retryDelay, e);
      UpdateKeeps(sys, max, e.id, TrackAfter(sys, max, retryDelay, e));
    }
  }

  lemma {:induction false} RunKeeps(max: nat, retryDelay: nat, run: seq<System>, events: seq<Event>, i: nat)
    requires IsRun(max, retryDelay, run, events) && i < |run| && max >= 1
    ensures SystemOk(run[i], max)
  {
    if i > 0 {
      RunKeeps(max, retryDelay, run, events, i - 1);
      StepKeeps(run[i - 1], max, retryDelay, events[i - 1]);
    }
  }

  // ------------------------------------------------------------------ main results

  /**
   Whatever the interleaving, a run is reviewed at most `max` times plus once
   per recovered interruption and per claim from before the last commit that
   put the row back, of which there are at most as many as were held then.
   */
  lemma AttemptsAreBounded(max: nat, retryDelay: nat, run: seq<System>, events: seq<Event>, i: nat, id: nat)
    requires IsRun(max, retryDelay, run, events) && i < |run| && max >= 1 && id in run[i]
    ensures run[i][id].row.attempts <= max + run[i][id].recoveries + run[i][id].staleRetries
    ensures run[i][id].staleRetries <= run[i][id].stale
  {
    RunKeeps(max, retryDelay, run, events, i);
    UpToSize(max);
    SubsetIsSmaller(run[i][id].retried, UpTo(max));
  }

  lemma ExtendRun(max: nat, retryDelay: nat, run: seq<System>, events: seq<Event>, e: Event)
    requires IsRun(max, retryDelay, run, events) && Possible(run[|events|], e)
    ensures IsRun(max, retryDelay, run + [After(run[|events|], max, retryDelay, e)], events + [e])
  {
    var longer := run + [After(run[|events|], max, retryDelay, e)];
    forall i | 0 <= i < |events| + 1
      ensures Possible(longer[i], (events + [e])[i]) && longer[i + 1] == After(longer[i], max, retryDelay, (events + [e])[i])
    {
      if i < |events| { assert Possible(run[i], events[i]); }
    }
  }

  /** A run over the single id 0, one event longer. */
  lemma ExtendSingle(max: nat, retryDelay: nat, run: seq<System>, events: seq<Event>, t: Track, e: Event)
    returns (longer: seq<System>, more: seq<Event>)
    requires IsRun(max, retryDelay, run, events) && run[|events|] == map[0 := t]
    requires !e.Recover? && e.id == 0
    requires e.Claim? ==> Eligible(t.row, e.now)
    requires e.Settle? || e.Fail? || e.Die? ==> e.token in t.held
    ensures IsRun(max, retryDelay, longer, more) && more == events + [e] && longer[..|run|] == run
    ensures longer[|more|] == map[0 := TrackAfter(map[0 := t], max, retryDelay, e)]
  {
    var sys := run[|events|];
    if e.Claim? { assert RowsOf(sys) == map[0 := t.row]; assert Oldest(RowsOf(sys), e.now, None, 0); }
    AfterIsUpdate(sys, max, retryDelay, e);
    ExtendRun(max, retryDelay, run, events, e);
    longer, more := run + [After(sys, max, retryDelay, e)], events + [e];
  }

  /** The first claim of run 0, right after its commit. */
  lemma ClaimedOnce(max: nat, retryDelay: nat) returns (run: seq<System>, events: seq<Event>, t: Track)
    ensures IsRun(max, retryDelay, run, events) && |events| == 3 && run[3] == map[0 := t]
    ensures t == Track(Row(CONTRACT_VERSION, Reviewing, 1, None, 0), 1, [1], {Token(1, 1)}, 0, 0, 0, {})
  {
    run, events := [map[]], [];
    ExtendRun(max, retryDelay, run, events, Commit(0, 0));
    run, events := [map[], map[0 := NewTrack(0)]], [Commit(0, 0)];
    t := NewTrack(0);
    run, events := ExtendSingle(max, retryDelay, run, events, t, Enqueue(0));
    t := t.(row := EnqueuedRow(t.row));
    run, events := ExtendSingle(max, retryDelay, run, events, t, Claim(0, 0));
    t := ClaimTrack(t);
  }

  /** The first claim outlives a second commit and fails while the row is under its second review. */
  lemma StaleFailure(retryDelay: nat) returns (run: seq<System>, events: seq<Event>, t: Track)
    ensures IsRun(2, retryDelay, run, events) && run[|events|] == map[0 := t]
    ensures t == Track(Row(CONTRACT_VERSION, PendingReview, 1, Some(retryDelay), 0), 2, [1], {Token(2, 1)}, 0, 1, 1, {})
  {
    run, events, t := ClaimedOnce(2, retryDelay);
    run, events := ExtendSingle(2, retryDelay, run, events, t, Commit(0, 0));
    t := CommitTrack(t);
    run, events := ExtendSingle(2, retryDelay, run, events, t, Enqueue(0));
    t := t.(row := EnqueuedRow(t.row));
    run, events := ExtendSingle(2, retryDelay, run, events, t, Claim(0, 0));
    t := ClaimTrack(t);
    run, events := ExtendSingle(2, retryDelay, run, events, t, Fail(0, Token(1, 1), 0));
    t := FailTrack(t, 2, Token(1, 1), retryDelay);
  }

  /**
   The last summand is needed: with two reviews allowed and no interruption
   recovered, a worker that outlives a second commit makes a third attempt
   possible by failing, although its review is nobody's any more.
   */
  lemma StaleFailureAddsAttempt(retryDelay: nat) returns (run: seq<System>, events: seq<Event>)
    ensures IsRun(2, retryDelay, run, events) && 0 in run[|events|]
    ensures var t := run[|events|][0]; t.row.attempts == 3 && t.recoveries == 0 && t.staleRetries == 1
  {
    var t;
    run, events, t := StaleFailure(retryDelay);
    run, events := ExtendSingle(2, retryDelay, run, events, t, Claim(0, retryDelay));
    t := ClaimTrack(t);
    run, events := ExtendSingle(2, retryDelay, run, events, t, Fail(0, Token(2, 1), 0));
    t := FailTrack(t, 2, Token(2, 1), retryDelay);
    run, events := ExtendSingle(2, retryDelay, run, events, t, Claim(0, retryDelay));
  }

  /** Between two commits no attempt number is handed out twice, and a new claim is nobody else's. */
  lemma ClaimsAreUnique(max: nat, retryDelay: nat, run: seq<System>, events: seq<Event>, i: nat, id: nat)
    requires IsRun(max, retryDelay, run, events) && i < |run| && max >= 1 && id in run[i]
    ensures Distinct(run[i][id].given)
    ensures i < |events| && events[i].Claim? && events[i].id == id ==>
      var token := Token(run[i][id].gen, run[i][id].row.attempts + 1);
      token !in run[i][id].held && token in run[i + 1][id].held && token.attempt !in run[i][id].given
  {
    RunKeeps(max, retryDelay, run, events, i);
  }

  predicate IsSettled(row: Row) { row.status in {Accepted, Rejected} }

  predicate Rewrites(e: Event, id: nat) { (e.Commit? || e.Settle?) && e.id == id }

  /** A settled candidate stays exactly as it is until it is committed again or another verdict is written. */
  lemma {:induction false} SettledStays(
      max: nat, retryDelay: nat, run: seq<System>, events: seq<Event>, i: nat, j: nat, id: nat)
    requires IsRun(max, retryDelay, run, events) && i <= j < |run|
    requires id in run[i] && IsSettled(run[i][id].row)
    requires forall k :: i <= k < j ==> !Rewrites(events[k], id)
    ensures id in run[j] && run[j][id].row == run[i][id].row
  {
    if i < j {
      SettledStays(max, retryDelay, run, events, i, j - 1, id);
      if events[j - 1].Claim? { ClaimTakesPending(run[j - 1], events[j - 1]); }
    }
  }

  /** Whatever happens in between, the last verdict written since the last commit is the one that stands. */
  lemma LastVerdictStands(
      max: nat, retryDelay: nat, run: seq<System>, events: seq<Event>, i: nat, j: nat, id: nat)
    requires IsRun(max, retryDelay, run, events) && i < j < |run| && max >= 1
    requires events[i].Settle? && events[i].id == id
    requires forall k :: i < k < j ==> !Rewrites(events[k], id)
    ensures id in run[j] && run[j][id].row.status == if events[i].accepted then Accepted else Rejected
  {
    RunKeeps(max, retryDelay, run, events, i);
    assert Possible(run[i], events[i]) && run[i + 1] == After(run[i], max, retryDelay, events[i]);
    SettledStays(max, retryDelay, run, events, i + 1, j, id);
  }

  /**
   So a worker whose review was recovered and given to another one can still
   replace that one's verdict: accepted by the second claim, rejected by the first.
   */
  lemma LateVerdictReplaces(max: nat, retryDelay: nat) returns (run: seq<System>, events: seq<Event>)
    ensures IsRun(max, retryDelay, run, events) && |events| == 7
    ensures events[5] == Settle(0, Token(1, 2), true) && events[6] == Settle(0, Token(1, 1), false)
    ensures 0 in run[6] && run[6][0].row.status == Accepted
    ensures 0 in run[7] && run[7][0].row.status == Rejected
  {
    var t;
    run, events, t := ClaimedOnce(max, retryDelay);
    ExtendRun(max, retryDelay, run, events, Recover);
    run, events := run + [After(run[|events|], max, retryDelay, Recover)], events + [Recover];
    t := RecoverTrack(t);
    assert run[|events|] == map[0 := t];
    run, events := ExtendSingle(max, retryDelay, run, events, t, Claim(0, 0));
    t := ClaimTrack(t);
    run, events := ExtendSingle(max, retryDelay, run, events, t, Settle(0, Token(1, 2), true));
    t := t.(row := SettledRow(t.row, true));
    run, events := ExtendSingle(max, retryDelay, run, events, t, Settle(0, Token(1, 1), false));
  }

  /** The protocol's steps are the store's operations on the row they name. */
  lemma StepsAreStoreOperations(sys: System, max: nat, retryDelay: nat, e: Event)
    requires Possible(sys, e)
    ensures var rows, after := RowsOf(sys), RowsOf(After(sys, max, retryDelay, e));
      match e
      case Commit(id, now) => after == rows[id := CommittedRow(rows, id, now)]
      case Enqueue(id) => after == rows[id := EnqueuedRow(rows[id])]
      case Recover => after == map id | id in rows :: RecoveredRow(rows[id])
      case Claim(id, _) => id in rows && after == rows[id := ClaimedRow(rows[id])]
      case Settle(id, _, accepted) => after == rows[id := SettledRow(rows[id], accepted)]
      case Fail(id, token, now) => after == rows[id := DeferredRow(rows[id], token.attempt >= max, now + retryDelay)]
      case Die(_, _) => after == rows
  {}
}
