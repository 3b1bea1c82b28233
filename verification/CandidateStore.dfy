/**
 The review queue of experience candidates (agent/recipe/candidate_store.py)
 and the worker that drains it (agent/application/recipe_promotion_worker.py).
 Run ids are numbers, compared as the store's text ids are; times are numbers.
 */
module CandidateStore {
  import opened Prelude

  datatype Status = Recorded | PendingReview | Reviewing | Accepted | Rejected | ReviewFailed

  datatype Row = Row(version: nat, status: Status, attempts: nat, nextReview: Option<int>, createdAt: int)

  const CONTRACT_VERSION: nat := 3

  type Rows = map<nat, Row>

  // ------------------------------------------------------------ effect on one row

  predicate Current(row: Row) { row.version == CONTRACT_VERSION }

  function CommittedRow(rows: Rows, id: nat, now: int): Row {
    Row(CONTRACT_VERSION, Recorded, 0, None, if id in rows then rows[id].createdAt else now)
  }

  function EnqueuedRow(row: Row): Row {
    if Current(row) && row.status == Recorded then row.(status := PendingReview, nextReview := None) else row
  }

  function RecoveredRow(row: Row): Row {
    if Current(row) && row.status == Reviewing then row.(status := PendingReview, nextReview := None) else row
  }

  predicate Eligible(row: Row, now: int) {
    Current(row) && row.status == PendingReview && (row.nextReview.Some? ==> row.nextReview.value <= now)
  }

  function ClaimedRow(row: Row): Row {
    row.(status := Reviewing, attempts := row.attempts + 1)
  }

  function DeferredRow(row: Row, terminal: bool, retryAt: int): Row {
    if !Current(row) || row.status != Reviewing then row
    else if terminal then row.(status := ReviewFailed, nextReview := None)
    else row.(status := PendingReview, nextReview := Some(retryAt))
  }

  function SettledRow(row: Row, accepted: bool): Row {
    if Current(row) then row.(status := if accepted then Accepted else Rejected, nextReview := None) else row
  }

  predicate Before(a: nat, x: Row, b: nat, y: Row) {
    x.createdAt < y.createdAt || (x.createdAt == y.createdAt && a < b)
  }

  /** The row a claim takes: the oldest eligible one. */
  predicate Oldest(rows: Rows, now: int, only: Option<nat>, id: nat) {
    && id in rows && Eligible(rows[id], now) && (only.Some? ==> id == only.value)
    && (forall other | other in rows && other != id && Eligible(rows[other], now) && (only.Some? ==> other == only.value) ::
          Before(id, rows[id], other, rows[other]))
  }

  // ---------------------------------------------------------------------- the store

  class RecipeCandidateStore {
    var rows: Rows

    constructor ()
      ensures rows == map[]
    {
      rows := map[];
    }

    method CommitCandidate(id: nat, hasTransitions: bool, now: int) returns (committed: bool)
      modifies this
      ensures committed == hasTransitions
      ensures rows == if hasTransitions then old(rows)[id := CommittedRow(old(rows), id, now)] else old(rows)
    {
      if !hasTransitions { return false; }
      var createdAt := if id in rows then rows[id].createdAt else now;
      rows := rows[id := Row(CONTRACT_VERSION, Recorded, 0, None, createdAt)];
      return true;
    }

    method EnqueueReview(id: nat) returns (changed: bool)
      modifies this
      ensures changed <==> id in old(rows) && Current(old(rows)[id]) && old(rows)[id].status == Recorded
      ensures rows == if id in old(rows) then old(rows)[id := EnqueuedRow(old(rows)[id])] else old(rows)
    {
      if id !in rows || rows[id].version != CONTRACT_VERSION || rows[id].status != Recorded {
        assert id in rows ==> rows[id := rows[id]] == rows;
        return false;
      }
      rows := rows[id := rows[id].(status := PendingReview, nextReview := None)];
      return true;
    }

    method UpdateStatus(id: nat, accepted: bool) returns (changed: bool)
      modifies this
      ensures changed <==> id in old(rows) && Current(old(rows)[id])
      ensures rows == if id in old(rows) then old(rows)[id := SettledRow(old(rows)[id], accepted)] else old(rows)
    {
      if id !in rows || rows[id].version != CONTRACT_VERSION {
        assert id in rows ==> rows[id := rows[id]] == rows;
        return false;
      }
      rows := rows[id := rows[id].(status := if accepted then Accepted else Rejected, nextReview := None)];
      return true;
    }

    method RecoverInterruptedReviews() returns (recovered: nat)
      modifies this
      ensures rows == map id | id in old(rows) :: RecoveredRow(old(rows)[id])
      ensures recovered == |set id | id in old(rows) && Current(old(rows)[id]) && old(rows)[id].status == Reviewing|
    {
      recovered := |set id | id in rows && Current(rows[id]) && rows[id].status == Reviewing|;
      rows := map id | id in rows :: RecoveredRow(rows[id]);
    }

    method DeferReview(id: nat, terminal: bool, retryAt: int) returns (changed: bool)
      modifies this
      ensures changed <==> id in old(rows) && Current(old(rows)[id]) && old(rows)[id].status == Reviewing
      ensures rows == if id in old(rows) then old(rows)[id := DeferredRow(old(rows)[id], terminal, retryAt)] else old(rows)
    {
      if id !in rows || rows[id].version != CONTRACT_VERSION || rows[id].status != Reviewing {
        assert id in rows ==> rows[id := rows[id]] == rows;
        return false;
      }
      rows := rows[id :=
        if terminal then rows[id].(status := ReviewFailed, nextReview := None)
        else rows[id].(status := PendingReview, nextReview := Some(retryAt))];
      return true;
    }

    /** One transaction: pick the oldest eligible row, mark it as being reviewed, count the attempt. */
    method ClaimReview(now: int, only: Option<nat>) returns (claimed: Option<(nat, nat)>)
      modifies this
      ensures claimed.None? ==> rows == old(rows)
      ensures claimed.None? <==> forall id | id in old(rows) && (only.Some? ==> id == only.value) :: !Eligible(old(rows)[id], now)
      ensures claimed.Some? ==>
        var (id, attempt) := claimed.value;
        && Oldest(old(rows), now, only, id)
        && attempt == old(rows)[id].attempts + 1
        && rows == old(rows)[id := ClaimedRow(old(rows)[id])]
    {
      var best: Option<nat> := None;
      var left := rows.Keys;
      while left != {}
        invariant left <= rows.Keys && rows == old(rows)
        invariant best.None? ==>
          forall id | id in rows.Keys - left && (only.Some? ==> id == only.value) :: !Eligible(rows[id], now)
        invariant best.Some? ==>
          && best.value in rows && Eligible(rows[best.value], now) && (only.Some? ==> best.value == only.value)
          && forall id | id in rows.Keys - left && id != best.value && Eligible(rows[id], now) && (only.Some? ==> id == only.value) ::
               Before(best.value, rows[best.value], id, rows[id])
        decreases |left|
      {
        var id :| id in left;
        left := left - {id};
        if Eligible(rows[id], now) && (only.None? || id == only.value) {
          if best.None? || Before(id, rows[id], best.value, rows[best.value]) { best := Some(id); }
        }
      }
      if best.None? { return None; }
      var id := best.value;
      rows := rows[id := ClaimedRow(rows[id])];
      return Some((id, rows[id].attempts));
    }
  }

  /** What the critic did with a claimed candidate; `Failed` is any exception. */
  datatype Outcome = Decided(accepted: bool) | Failed

  class RecipePromotionWorker {
    const store: RecipeCandidateStore
    const maxAttempts: nat
    const retryDelay: nat
    var running: bool

    constructor (store: RecipeCandidateStore, maxAttempts: int, retryDelay: nat)
      ensures this.store == store && !running
      ensures this.maxAttempts == if maxAttempts < 1 then 1 else maxAttempts
    {
      this.store, this.maxAttempts, this.retryDelay := store, if maxAttempts < 1 then 1 else maxAttempts, retryDelay;
      running := false;
    }

    method Start() returns (started: bool)
      modifies this`running, store
      ensures started == !old(running) && running
      ensures store.rows == if started then map id | id in old(store.rows) :: RecoveredRow(old(store.rows)[id]) else old(store.rows)
    {
      if running { return false; }
      var recovered := store.RecoverInterruptedReviews();
      running := true;
      return true;
    }

    /** `process_one` when nobody else touches the store meanwhile. */
    method ProcessOne(now: int, only: Option<nat>, outcome: Outcome) returns (claimed: Option<(nat, nat)>)
      modifies store
      ensures claimed.None? ==> store.rows == old(store.rows)
      ensures claimed.Some? ==>
        var (id, attempt) := claimed.value;
        && Oldest(old(store.rows), now, only, id)
        && attempt == old(store.rows)[id].attempts + 1
        && store.rows == old(store.rows)[id :=
             match outcome
             case Decided(accepted) => SettledRow(ClaimedRow(old(store.rows)[id]), accepted)
             case Failed => DeferredRow(ClaimedRow(old(store.rows)[id]), attempt >= maxAttempts, now + retryDelay)]
    {
      claimed := store.ClaimReview(now, only);
      if claimed.None? { return; }
      var (id, attempt) := claimed.value;
      match outcome {
        case Decided(accepted) =>
          var _ := store.UpdateStatus(id, accepted);
        case Failed =>
          var _ := store.DeferReview(id, attempt >= maxAttempts, now + retryDelay);
      }
    }
  }
}
