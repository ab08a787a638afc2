/**
 The deployment_outbox table as the server's repository changes it: one
 function per SQL statement on a row, the claim of a batch, and the attempt
 budget that bounds how often rows can be claimed.
 */
module Outbox {
  import opened Wrappers
  import Contract
  import opened Faults

  datatype State = Pending | Publishing | Sent | Failed | DeadLetter

  datatype EventType = DeployJobs | OtherEvent(name: string)

  datatype Row = Row(
    eventType: EventType,
    version: int,
    payload: Contract.Body,
    state: State,
    attempts: nat,
    availableAt: int,
    createdAt: int,
    updatedAt: int,
    sentAt: Option<int>)

  type Table = map<nat, Row>

  const SECOND: int := 1_000_000_000
  const CLAIM_LEASE: int := 30 * SECOND
  const MAX_ATTEMPTS: nat := 5

  // ---------- One row ----------

  predicate Claimable(r: Row, now: int) {
    && r.attempts < MAX_ATTEMPTS
    && (|| ((r.state.Pending? || r.state.Failed?) && r.availableAt <= now)
        || (r.state.Publishing? && r.updatedAt < now - CLAIM_LEASE))
  }

  function Claimed(r: Row, now: int): Row {
    r.(state := Publishing, attempts := r.attempts + 1, availableAt := now, updatedAt := now)
  }

  // MarkOutboxSent and MarkOutboxPublishFailed touch publishing rows only.
  function MarkedSent(r: Row, now: int): Row {
    if r.state.Publishing? then r.(state := Sent, sentAt := Some(now), updatedAt := now) else r
  }

  function MarkedFailed(r: Row, now: int, next: int): Row {
    if r.state.Publishing?
    then r.(state := if r.attempts >= MAX_ATTEMPTS then DeadLetter else Failed, availableAt := next, updatedAt := now)
    else r
  }

  predicate Stuck(r: Row, now: int, lease: int) {
    r.state.Publishing? && r.updatedAt < now - lease
  }

  function Reset(r: Row, now: int, lease: int): Row {
    if Stuck(r, now, lease) then r.(state := Pending, availableAt := now, updatedAt := now) else r
  }

  predicate Expired(r: Row, now: int, retention: int) {
    r.state.Sent? && r.sentAt.Some? && r.sentAt.value < now - retention
  }

  // ---------- When a row can be claimed ----------

  /** A claim is exclusive for as long as its lease lasts; then the row can be claimed again, while attempts are left. */
  lemma ClaimedFor(r: Row, at: int, now: int)
    ensures Claimable(Claimed(r, at), now) <==> at + 30_000_000_000 < now && r.attempts + 1 < 5
  {}

  /** A failed row waits until the time that was set for it, and a dead-lettered one for ever. */
  lemma FailedUntil(r: Row, at: int, next: int, now: int)
    requires r.state.Publishing?
    ensures Claimable(MarkedFailed(r, at, next), now) <==> next <= now && r.attempts < 5
  {}

  /** A recovered row can be claimed at once, if an attempt is left; one whose lease still runs is not recovered. */
  lemma RecoveredAt(r: Row, at: int, lease: int, now: int)
    requires r.state.Publishing? && at <= now
    ensures r.updatedAt + lease < at ==> (Claimable(Reset(r, at, lease), now) <==> r.attempts < 5)
    ensures r.updatedAt + lease >= at ==> Reset(r, at, lease) == r
  {}

  /** What was just claimed is recovered no earlier than its lease allows. */
  lemma ClaimedIsNotStuck(r: Row, claimed: int, lease: int, at: int)
    ensures Reset(Claimed(r, claimed), at, lease) != Claimed(r, claimed) ==> claimed + lease < at
  {}

  /** A new row can be claimed from the time that it became available on. */
  lemma FreshFrom(r: Row, now: int)
    requires r.state.Pending? && r.attempts == 0
    ensures Claimable(r, now) <==> r.availableAt <= now
  {}

  /** A sent row is kept for the retention after it was sent, and is never claimed or recovered. */
  lemma SentFor(r: Row, at: int, retention: int, lease: int, now: int)
    requires r.state.Publishing?
    ensures var sent := MarkedSent(r, at);
            && (Expired(sent, now, retention) <==> at + retention < now) && !Claimable(sent, now) && Reset(sent, now, lease) == sent
            && forall touched :: Expired(sent.(updatedAt := touched), now, retention) <==> Expired(sent, now, retention)
  {}

  // ---------- The table ----------

  function ClaimAll(rows: Table, ids: seq<nat>, now: int): Table {
    map id | id in rows :: if id in ids then Claimed(rows[id], now) else rows[id]
  }

  function ResetAll(rows: Table, now: int, lease: int): Table {
    map id | id in rows :: Reset(rows[id], now, lease)
  }

  function DeleteExpired(rows: Table, now: int, retention: int): Table {
    map id | id in rows && !Expired(rows[id], now, retention) :: rows[id]
  }

  // ORDER BY available_at ASC, created_at ASC
  predicate Before(a: Row, b: Row) {
    a.availableAt < b.availableAt || (a.availableAt == b.availableAt && a.createdAt < b.createdAt)
  }

  predicate Distinct(ids: seq<nat>) {
    forall i, j | 0 <= i < j < |ids| :: ids[i] != ids[j]
  }

  // Rows that a claim may take together.
  predicate CanClaim(rows: Table, now: int, ids: seq<nat>) {
    Distinct(ids) && forall i | 0 <= i < |ids| :: ids[i] in rows && Claimable(rows[ids[i]], now)
  }

  /**
   ids is what the claim statement selects, in whatever order it returns them;
   it skips the rows that other transactions have locked.
   */
  predicate IsBatch(rows: Table, now: int, limit: int, locked: set<nat>, ids: seq<nat>) {
    && CanClaim(rows, now, ids)
    && (forall i | 0 <= i < |ids| :: ids[i] !in locked)
    && (|ids| == 0 || |ids| <= limit)
    && (limit > 0 ==>
          forall id | id in rows && Claimable(rows[id], now) && id !in locked && id !in ids ::
            |ids| == limit && forall i | 0 <= i < |ids| :: !Before(rows[id], rows[ids[i]]))
  }

  lemma {:induction false} FirstExists(rows: Table, ids: set<nat>)
    requires ids != {} && ids <= rows.Keys
    ensures exists id | id in ids :: forall other | other in ids :: !Before(rows[other], rows[id])
  {
    var x :| x in ids;
    if ids != {x} {
      FirstExists(rows, ids - {x});
      var y :| y in ids - {x} && forall other | other in ids - {x} :: !Before(rows[other], rows[y]);
      var first := if Before(rows[x], rows[y]) then x else y;
      assert forall other | other in ids :: !Before(rows[other], rows[first]);
    }
  }

  // ---------- The attempt budget ----------

  function Left(r: Row): nat {
    if r.attempts < MAX_ATTEMPTS then MAX_ATTEMPTS - r.attempts else 0
  }

  /** How many claims the table can still grant. */
  ghost function Budget(rows: Table): nat {
    if rows == map[] then 0
    else
      var id :| id in rows;
      Left(rows[id]) + Budget(rows - {id})
  }

  lemma {:induction false} BudgetSplit(rows: Table, id: nat)
    requires id in rows
    ensures Budget(rows) == Left(rows[id]) + Budget(rows - {id})
  {
    var x :| x in rows && Budget(rows) == Left(rows[x]) + Budget(rows - {x});
    if x != id {
      BudgetSplit(rows - {x}, id);
      BudgetSplit(rows - {id}, x);
      assert rows - {x} - {id} == rows - {id} - {x};
    }
  }

  lemma {:induction false} BudgetCountsAttempts(rows: Table, rows': Table)
    requires rows.Keys == rows'.Keys
    requires forall id | id in rows :: rows[id].attempts == rows'[id].attempts
    ensures Budget(rows) == Budget(rows')
  {
    if rows != map[] {
      var id :| id in rows;
      BudgetSplit(rows, id);
      BudgetSplit(rows', id);
      BudgetCountsAttempts(rows - {id}, rows' - {id});
    }
  }

  /** Every claimed row spends exactly one unit of the budget. */
  lemma {:induction false} ClaimSpendsBudget(rows: Table, ids: seq<nat>, now: int)
    requires Distinct(ids)
    requires forall i | 0 <= i < |ids| :: ids[i] in rows && Claimable(rows[ids[i]], now)
    ensures Budget(ClaimAll(rows, ids, now)) + |ids| == Budget(rows)
  {
    var after := ClaimAll(rows, ids, now);
    if ids == [] {
      assert after == rows;
    } else {
      var id, rest := ids[0], ids[1..];
      var before := ClaimAll(rows, rest, now);
      ClaimSpendsBudget(rows, rest, now);
      BudgetSplit(before, id);
      BudgetSplit(after, id);
      assert after - {id} == before - {id};
      assert id !in rest;
    }
  }

  // ---------- The life of a row ----------

  // The statements that change rows; times are those at which they run.
  datatype Statement =
    | ClaimRows(ids: seq<nat>, now: int)
    | MarkSent(id: nat, now: int)
    | MarkFailed(id: nat, now: int, next: int)
    | ResetStuck(now: int, lease: int)
    | DeleteSent(now: int, retention: int)

  function Execute(rows: Table, st: Statement): Table {
    match st
    case ClaimRows(ids, now) => if CanClaim(rows, now, ids) then ClaimAll(rows, ids, now) else rows
    case MarkSent(id, now) => if id in rows then rows[id := MarkedSent(rows[id], now)] else rows
    case MarkFailed(id, now, next) => if id in rows then rows[id := MarkedFailed(rows[id], now, next)] else rows
    case ResetStuck(now, lease) => ResetAll(rows, now, lease)
    case DeleteSent(now, retention) => DeleteExpired(rows, now, retention)
  }

  function ExecuteAll(rows: Table, sts: seq<Statement>): Table {
    if sts == [] then rows else Execute(ExecuteAll(rows, sts[..|sts| - 1]), sts[|sts| - 1])
  }

  predicate Fresh(r: Row) { r.state.Pending? && r.attempts == 0 && r.sentAt.None? }

  /** What a row says about its past. */
  predicate Consistent(r: Row) {
    && r.attempts <= MAX_ATTEMPTS
    && (r.state.Publishing? || r.state.Sent? || r.state.Failed? ==> r.attempts >= 1)
    && (r.state.Failed? ==> r.attempts < MAX_ATTEMPTS)
    && (r.state.DeadLetter? ==> r.attempts == MAX_ATTEMPTS)
    && (r.state.Sent? <==> r.sentAt.Some?)
  }

  predicate SameContent(r: Row, r': Row) {
    r'.eventType == r.eventType && r'.version == r.version && r'.payload == r.payload && r'.createdAt == r.createdAt
  }

  // One statement on one row: a claim spends an attempt, only a publishing row
  // is sent, fails or is recovered, and sent and dead-lettered rows are done.
  predicate Follows(r: Row, r': Row) {
    || r' == r
    || (SameContent(r, r') && r'.state.Publishing? && r'.attempts == r.attempts + 1 && r.attempts < MAX_ATTEMPTS
        && (r.state.Pending? || r.state.Failed? || r.state.Publishing?))
    || (SameContent(r, r') && r.state.Publishing? && !r'.state.Publishing? && r'.attempts == r.attempts
        && (r'.state.Failed? ==> r.attempts < MAX_ATTEMPTS) && (r'.state.DeadLetter? ==> r.attempts >= MAX_ATTEMPTS))
  }

  lemma ClaimedOnce(rows: Table, ids: seq<nat>, now: int, id: nat)
    requires CanClaim(rows, now, ids) && id in ids
    ensures id in rows && Claimable(rows[id], now)
  {
    var i :| 0 <= i < |ids| && ids[i] == id;
  }

  lemma StatementFollows(rows: Table, st: Statement, id: nat)
    requires id in Execute(rows, st)
    ensures id in rows && Follows(rows[id], Execute(rows, st)[id])
  {
    if st.ClaimRows? && CanClaim(rows, st.now, st.ids) && id in st.ids {
      ClaimedOnce(rows, st.ids, st.now, id);
    }
  }

  lemma StatementKeepsConsistent(rows: Table, st: Statement, id: nat)
    requires id in Execute(rows, st) && id in rows && Consistent(rows[id])
    ensures Consistent(Execute(rows, st)[id]) && SameContent(rows[id], Execute(rows, st)[id])
  {
    if st.ClaimRows? && CanClaim(rows, st.now, st.ids) && id in st.ids {
      ClaimedOnce(rows, st.ids, st.now, id);
    }
  }

  /** After any statements in any order every row is consistent and still holds its event. */
  lemma {:induction false} RowsStayConsistent(rows: Table, sts: seq<Statement>, id: nat)
    requires id in rows && Fresh(rows[id]) && id in ExecuteAll(rows, sts)
    ensures Consistent(ExecuteAll(rows, sts)[id]) && SameContent(rows[id], ExecuteAll(rows, sts)[id])
  {
    hide Execute, Consistent;
    if sts == [] {
      assert Consistent(rows[id]) by { FreshIsConsistent(rows[id]); }
    } else {
      var before := ExecuteAll(rows, sts[..|sts| - 1]);
      StatementFollows(before, sts[|sts| - 1], id);
      RowsStayConsistent(rows, sts[..|sts| - 1], id);
      StatementKeepsConsistent(before, sts[|sts| - 1], id);
    }
  }

  lemma FreshIsConsistent(r: Row)
    requires Fresh(r)
    ensures Consistent(r)
  {}

  // The row was marked sent by one of the first k statements.
  predicate WasSent(rows: Table, sts: seq<Statement>, id: nat, k: nat)
    requires k <= |sts|
  {
    id in ExecuteAll(rows, sts[..k]) && ExecuteAll(rows, sts[..k])[id].state.Sent?
  }

  /** A row that is gone was sent before. */
  lemma {:induction false} OnlySentRowsGo(rows: Table, sts: seq<Statement>, id: nat)
    requires id in rows && id !in ExecuteAll(rows, sts)
    ensures exists k | 0 <= k <= |sts| :: WasSent(rows, sts, id, k)
  {
    if sts != [] {
      hide Execute;
      var n := |sts| - 1;
      var before := ExecuteAll(rows, sts[..n]);
      if id in before {
        OnlyExpiredGo(before, sts[n], id);
        assert WasSent(rows, sts, id, n);
      } else {
        OnlySentRowsGo(rows, sts[..n], id);
        var k :| 0 <= k <= n && WasSent(rows, sts[..n], id, k);
        assert sts[..n][..k] == sts[..k];
        assert WasSent(rows, sts, id, k);
      }
    }
  }

  lemma OnlyExpiredGo(rows: Table, st: Statement, id: nat)
    requires id in rows && id !in Execute(rows, st)
    ensures st.DeleteSent? && Expired(rows[id], st.now, st.retention)
  {}

  /** Sent and dead-lettered rows are done: they stay as they are, but for the deletion of sent ones. */
  lemma {:induction false} DoneRowsStay(rows: Table, sts: seq<Statement>, id: nat)
    requires id in rows && (rows[id].state.Sent? || rows[id].state.DeadLetter?)
    ensures if id in ExecuteAll(rows, sts) then ExecuteAll(rows, sts)[id] == rows[id] else rows[id].state.Sent?
  {
    if sts != [] {
      hide Execute;
      var n := |sts| - 1;
      var before := ExecuteAll(rows, sts[..n]);
      DoneRowsStay(rows, sts[..n], id);
      if id in ExecuteAll(rows, sts) {
        StatementFollows(before, sts[n], id);
      } else if id in before {
        OnlyExpiredGo(before, sts[n], id);
      }
    }
  }
}
