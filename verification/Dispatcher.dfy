/**
 The outbox dispatcher: claiming batches, publishing with confirms, recording
 the result, recovering abandoned claims. What one event does to the outside is
 given as the list of its effects; the methods are proved to produce exactly
 that list, and a crash is any prefix of it.
 */
module Dispatcher {
  import opened Wrappers
  import Contract
  import opened Faults
  import opened Outbox

  // ---------- Configuration and delays ----------

  datatype Config = Config(
    pollInterval: int64,
    batchSize: int64,
    backoffBase: int64,
    backoffMax: int64,
    stuckLease: int64,
    retention: int64,
    reconcileEvery: int64)

  const DEFAULT_POLL_INTERVAL: int64 := 2_000_000_000
  const DEFAULT_BATCH_SIZE: int64 := 50
  const DEFAULT_BACKOFF_BASE: int64 := 2_000_000_000
  const DEFAULT_BACKOFF_MAX: int64 := 300_000_000_000
  const DEFAULT_STUCK_LEASE: int64 := 30_000_000_000
  const DEFAULT_RETENTION: int64 := 86_400_000_000_000
  const DEFAULT_RECONCILE_EVERY: int64 := 60_000_000_000

  function Pow2(n: nat): (p: int)
    ensures p >= 1
  {
    if n == 0 then 1 else 2 * Pow2(n - 1)
  }

  function Min(a: int, b: int): int { if a <= b then a else b }

  /** The capped exponential delay, in unbounded arithmetic. */
  function Delay(base: int, max: int, attempts: int): int {
    Min(base * Pow2(if attempts < 0 then 0 else attempts), max)
  }

  // A setting is kept when it is positive, and replaced otherwise.
  predicate IsOr(now: int64, was: int64, standard: int64) { now == if was > 0 then was else standard }

  // The backoff settings that backoff() works with: it replaces unusable ones.
  function Effective(c: Config): Config {
    c.(backoffBase := if c.backoffBase <= 0 then DEFAULT_BACKOFF_BASE else c.backoffBase,
       backoffMax := if c.backoffMax <= 0 then DEFAULT_BACKOFF_MAX else c.backoffMax)
  }

  function DelayAfter(c: Config, attempts: int): int {
    Delay(Effective(c).backoffBase as int, Effective(c).backoffMax as int, attempts)
  }

  lemma {:induction false} Pow2Monotone(m: nat, n: nat)
    requires m <= n
    ensures Pow2(m) <= Pow2(n)
  {
    if m < n {
      Pow2Monotone(m, n - 1);
    }
  }

  /** More attempts never wait less, and never longer than the cap. */
  lemma DelayMonotone(base: int, max: int, m: int, n: int)
    requires base > 0 && m <= n
    ensures Delay(base, max, m) <= Delay(base, max, n) <= max
  {
    var m', n' := if m < 0 then 0 else m, if n < 0 then 0 else n;
    Pow2Monotone(m', n');
    ScaledMonotone(base, Pow2(m'), Pow2(n'));
  }

  /** The delay doubles with every attempt, from the base up to the cap; a negative count is none. */
  lemma DelaySteps(base: int, max: int, n: nat, negative: int)
    requires 0 < base && 0 < max && negative <= 0
    ensures Delay(base, max, negative) == if base <= max then base else max
    ensures Delay(base, max, n + 1) == if 2 * Delay(base, max, n) <= max then 2 * Delay(base, max, n) else max
  {
    BaseTimesPow2(base, n);
    assert base * Pow2(n + 1) == 2 * (base * Pow2(n));
  }

  // ---------- One event ----------

  datatype Event = Event(id: nat, row: Row)

  // What the outside answers while one event is dispatched, and how long it takes.
  datatype EventEnv = EventEnv(confirm: Confirm, mark: Db, elapsed: nat)

  datatype Effect =
    | Send(message: Contract.Envelope, confirm: Confirm)
    | RecordSent(db: Db)
    | RecordFailure(next: int, db: Db)

  datatype DispatchError =
    | PayloadInvalid | PublishFailed | ConfirmRejected | Unknown | MarkSentFailed

  /** The job a row stands for, or None for a poison row. */
  function Message(r: Row): Option<Contract.Envelope> {
    if r.eventType != DeployJobs || r.version != Contract.VERSION_V1 as int then None
    else match Contract.DecodeV1(r.payload)
      case Err(_) => None
      case Ok(req) => (match Contract.Publishing(req) case Ok(m) => Some(m) case Err(_) => None)
  }

  /** A recorded request is published as itself exactly when it is valid. */
  lemma RecordedIsPublished(r: Row, req: Contract.BuildRequest)
    requires r.eventType == DeployJobs && r.version == Contract.VERSION_V1 as int && r.payload == Contract.Doc(Contract.Encode(req))
    ensures Message(r).Some? <==> Contract.Valid(req)
    ensures Contract.Valid(req) ==> Contract.Publishing(req) == Ok(Message(r).value)
  {
    Contract.RoundTrip(req);
    Contract.PublishedIsReceived(req);
    hide Contract.Unmarshal, Contract.Encode, Contract.Validate;
  }

  /** A row stands for a message exactly when its type and version are those of the contract and its payload is a valid request. */
  lemma MessageExactly(r: Row, m: Contract.Envelope)
    ensures Message(r) == Some(m) <==>
              r.eventType == DeployJobs && r.version == 1
              && exists req :: Contract.DecodeV1(r.payload) == Ok(req) && Contract.Publishing(req) == Ok(m)
  {
    hide Contract.DecodeV1, Contract.Publishing;
  }

  /** at is the time when the result is recorded, delay the backoff of this attempt. */
  function Effects(r: Row, env: EventEnv, at: int, delay: int): (effects: seq<Effect>)
    ensures effects != []
  {
    if Message(r).None? then [RecordFailure(at, env.mark)]
    else
      var send := Send(Message(r).value, env.confirm);
      match env.confirm
      case Acked => [send, RecordSent(env.mark)]
      case Nacked => [send, RecordFailure(at + delay, env.mark)]
      case Broken(_) => [send, RecordFailure(at + delay, env.mark)]
      case Interrupted(_) => [send]
  }

  function Perform(rows: Table, id: nat, effect: Effect, now: int): Table {
    if id !in rows then rows
    else match effect
      case Send(_, _) => rows
      case RecordSent(db) => if db.Took() then rows[id := MarkedSent(rows[id], now)] else rows
      case RecordFailure(next, db) => if db.Took() then rows[id := MarkedFailed(rows[id], now, next)] else rows
  }

  function PerformAll(rows: Table, id: nat, effects: seq<Effect>, now: int): Table {
    if effects == [] then rows else PerformAll(Perform(rows, id, effects[0], now), id, effects[1..], now)
  }

  lemma PerformOne(rows: Table, id: nat, a: Effect, now: int)
    ensures PerformAll(rows, id, [a], now) == Perform(rows, id, a, now)
  {}

  lemma PerformTwo(rows: Table, id: nat, a: Effect, b: Effect, now: int)
    ensures PerformAll(rows, id, [a, b], now) == Perform(Perform(rows, id, a, now), id, b, now)
  {
    assert [a, b][1..] == [b];
    PerformOne(Perform(rows, id, a, now), id, b, now);
  }

  /**
   Where one event leaves its row, in terms of what the outside answered:
   sent only on a recorded broker ack, failed or dead-lettered only on a
   recorded refusal or a poison payload, untouched otherwise.
   */
  lemma EventOutcome(rows: Table, e: Event, env: EventEnv, at: int, delay: int)
    requires e.id in rows && rows[e.id].state.Publishing?
    ensures var after := PerformAll(rows, e.id, Effects(e.row, env, at, delay), at);
            var poison := Message(e.row).None?;
            var refused := env.confirm.Nacked? || env.confirm.Broken?;
            && after.Keys == rows.Keys
            && (forall id | id in rows && id != e.id :: after[id] == rows[id])
            && (after[e.id].state.Sent? <==> !poison && env.confirm.Acked? && env.mark.Took())
            && (after[e.id].state.Failed? <==>
                  (poison || refused) && env.mark.Took() && rows[e.id].attempts < MAX_ATTEMPTS)
            && (after[e.id].state.DeadLetter? <==>
                  (poison || refused) && env.mark.Took() && rows[e.id].attempts >= MAX_ATTEMPTS)
            && ((!env.mark.Took() || (!poison && env.confirm.Interrupted?)) <==> after[e.id] == rows[e.id])
            && (after[e.id].state.Failed? ==>
                  after[e.id].availableAt == if poison then at else at + delay)
  {
    hide Message;
    var effects := Effects(e.row, env, at, delay);
    if |effects| == 2 {
      PerformTwo(rows, e.id, effects[0], effects[1], at);
    } else {
      PerformOne(rows, e.id, effects[0], at);
    }
  }

  // ---------- A batch ----------

  datatype BatchEnv = BatchEnv(
    done: nat -> bool,       // is the context done at the n-th look
    claim: nat -> Db,        // how the n-th claim statement ends
    locked: nat -> set<nat>, // the rows that others hold locked during it
    event: nat -> EventEnv)  // what the n-th dispatched event meets

  datatype Entry =
    | ClaimedBatch(events: seq<Event>, at: int, locked: set<nat>)
    | LostClaim(ids: seq<nat>, at: int, locked: set<nat>)
    | Dispatched(event: Event, env: EventEnv, at: int, delay: int)

  datatype Stop = ContextDone | ClaimFailed | Drained

  function Ids(events: seq<Event>): (ids: seq<nat>)
    ensures |ids| == |events| && forall i | 0 <= i < |ids| :: ids[i] == events[i].id
  {
    seq(|events|, i requires 0 <= i < |events| => events[i].id)
  }

  function Apply(rows: Table, entry: Entry): Table {
    match entry
    case ClaimedBatch(events, at, _) => ClaimAll(rows, Ids(events), at)
    case LostClaim(ids, at, _) => ClaimAll(rows, ids, at)
    case Dispatched(e, env, at, delay) => PerformAll(rows, e.id, Effects(e.row, env, at, delay), at)
  }

  /** The table after the logged actions, whatever produced the log. */
  function Replay(rows: Table, log: seq<Entry>): Table {
    if log == [] then rows else Apply(Replay(rows, log[..|log| - 1]), log[|log| - 1])
  }

  /** All events the log claims, in the order the claims returned them. */
  function ClaimedEvents(log: seq<Entry>): seq<Event> {
    if log == [] then []
    else
      var before := ClaimedEvents(log[..|log| - 1]);
      if log[|log| - 1].ClaimedBatch? then before + log[|log| - 1].events else before
  }

  function DispatchedEvents(log: seq<Entry>): seq<Event> {
    if log == [] then []
    else
      var before := DispatchedEvents(log[..|log| - 1]);
      if log[|log| - 1].Dispatched? then before + [log[|log| - 1].event] else before
  }

  function Batches(log: seq<Entry>): seq<seq<Event>> {
    if log == [] then []
    else
      var before := Batches(log[..|log| - 1]);
      if log[|log| - 1].ClaimedBatch? then before + [log[|log| - 1].events] else before
  }

  lemma EmptyLog(rows: Table)
    ensures Replay(rows, []) == rows && ClaimedEvents([]) == [] && Batches([]) == [] && DispatchedEvents([]) == []
  {}

  lemma Logged(rows: Table, log: seq<Entry>, entry: Entry)
    ensures var longer := log + [entry];
            && Replay(rows, longer) == Apply(Replay(rows, log), entry)
            && (forall limit :: Legal(rows, longer, limit) <==> Legal(rows, log, limit) && LegalEntry(Replay(rows, log), entry, limit))
            && ClaimedEvents(longer) == ClaimedEvents(log) + (if entry.ClaimedBatch? then entry.events else [])
            && Batches(longer) == Batches(log) + (if entry.ClaimedBatch? then [entry.events] else [])
            && DispatchedEvents(longer) == DispatchedEvents(log) + (if entry.Dispatched? then [entry.event] else [])
  {
    assert (log + [entry])[..|log|] == log;
  }

  /** Every claim in the log is one the claim statement can make at that point. */
  ghost predicate Legal(start: Table, log: seq<Entry>, limit: int) {
    log != [] ==>
      Legal(start, log[..|log| - 1], limit) && LegalEntry(Replay(start, log[..|log| - 1]), log[|log| - 1], limit)
  }

  ghost predicate LegalEntry(before: Table, entry: Entry, limit: int) {
    && (entry.ClaimedBatch? ==>
          && IsBatch(before, entry.at, limit, entry.locked, Ids(entry.events))
          && forall i | 0 <= i < |entry.events| :: entry.events[i].row == Claimed(before[entry.events[i].id], entry.at))
    && (entry.LostClaim? ==> entry.ids == [] || IsBatch(before, entry.at, limit, entry.locked, entry.ids))
  }

  // How often the log claims a row.
  function Claims(log: seq<Entry>, id: nat): nat {
    if log == [] then 0
    else
      var entry := log[|log| - 1];
      Claims(log[..|log| - 1], id)
      + if (entry.ClaimedBatch? && id in Ids(entry.events)) || (entry.LostClaim? && id in entry.ids) then 1 else 0
  }

  /** The attempt counter counts the claims, and no row is claimed beyond the limit. */
  lemma {:induction false} ClaimsAreAttempts(start: Table, log: seq<Entry>, limit: int, id: nat)
    requires Legal(start, log, limit) && id in start
    ensures var after := Replay(start, log);
            && id in after
            && after[id].attempts == start[id].attempts + Claims(log, id)
            && (Claims(log, id) > 0 ==> after[id].attempts <= MAX_ATTEMPTS)
  {
    if log != [] {
      hide Effects, CanClaim;
      var shorter, entry := log[..|log| - 1], log[|log| - 1];
      var before := Replay(start, shorter);
      ClaimsAreAttempts(start, shorter, limit, id);
      match entry {
        case Dispatched(e, env, at, delay) =>
          PerformAllKeepsAttempts(before, e.id, Effects(e.row, env, at, delay), at);
        case ClaimedBatch(events, at, locked) =>
          BatchIsClaimable(before, at, Ids(events), id);
        case LostClaim(ids, at, locked) =>
          if ids != [] {
            BatchIsClaimable(before, at, ids, id);
          }
      }
    }
  }

  lemma BatchIsClaimable(rows: Table, now: int, ids: seq<nat>, id: nat)
    requires CanClaim(rows, now, ids)
    ensures id in ids ==> id in rows && Claimable(rows[id], now)
  {
    if id in ids {
      var i :| 0 <= i < |ids| && ids[i] == id;
    }
  }

  // Every batch but the last fills the limit.
  predicate FullUntilLast(batches: seq<seq<Event>>, limit: int) {
    && (forall i | 0 <= i < |batches| :: |batches[i]| <= limit)
    && (forall i | 0 <= i < |batches| - 1 :: |batches[i]| == limit)
  }

  lemma {:induction false} PerformAllKeepsAttempts(rows: Table, id: nat, effects: seq<Effect>, now: int)
    ensures var after := PerformAll(rows, id, effects, now);
            && after.Keys == rows.Keys
            && (forall x | x in rows :: after[x].attempts == rows[x].attempts)
            && Budget(after) == Budget(rows)
  {
    if effects != [] {
      var next := Perform(rows, id, effects[0], now);
      PerformAllKeepsAttempts(next, id, effects[1..], now);
      BudgetCountsAttempts(rows, next);
    }
  }

  class Repository {
    var rows: Table
    var now: int

    constructor (rows: Table, now: int)
      ensures this.rows == rows && this.now == now
    {
      this.rows, this.now := rows, now;
    }

    method Wait(elapsed: nat)
      modifies this`now
      ensures now == old(now) + elapsed
    {
      now := now + elapsed;
    }

    /**
     UPDATE ... WHERE id IN (SELECT ... LIMIT limit): may commit although an
     error is reported. Of what nobody has locked, the rows that have waited
     longest come first, and of those the oldest.
     */
    method ClaimOutboxBatch(limit: int, db: Db, locked: set<nat>) returns (ids: seq<nat>)
      modifies this`rows
      ensures if db.Took() then IsBatch(old(rows), now, limit, locked, ids) else ids == []
      ensures rows == ClaimAll(old(rows), ids, now)
      ensures forall id | id in ids :: id in old(rows) && Claimable(old(rows)[id], now) && id !in locked
      ensures forall i, j | 0 <= i < j < |ids| :: ids[i] != ids[j]
      ensures db.Took() && limit > 0 ==>
                |ids| <= limit && (|ids| == limit || forall id | id in old(rows) && Claimable(old(rows)[id], now) && id !in locked :: id in ids)
      ensures forall id | id in rows && id !in ids :: rows[id] == old(rows)[id]
      ensures forall id | id in ids ::
                id in rows && id in old(rows)
                && rows[id] == old(rows)[id].(state := Publishing, attempts := old(rows)[id].attempts + 1, availableAt := now, updatedAt := now)
      ensures db.Took() && limit > 0 ==>
                forall id, i | id in old(rows) && Claimable(old(rows)[id], now) && id !in locked && id !in ids && 0 <= i < |ids| ::
                  var claimed, left := old(rows)[ids[i]], old(rows)[id];
                  claimed.availableAt < left.availableAt
                  || (claimed.availableAt == left.availableAt && claimed.createdAt <= left.createdAt)
    {
      ids := [];
      if db.Took() {
        var rest: set<nat> := set id | id in rows && Claimable(rows[id], now) && id !in locked;
        ghost var all := rest;
        while |ids| < limit && rest != {}
          invariant rows == old(rows) && all == (set id | id in rows && Claimable(rows[id], now) && id !in locked)
          invariant Distinct(ids) && (|ids| == 0 || |ids| <= limit)
          invariant rest <= all && forall id | id in all :: id in rest || id in ids
          invariant forall i | 0 <= i < |ids| :: ids[i] in all && ids[i] !in rest
          invariant forall i, id | 0 <= i < |ids| && id in rest :: !Before(rows[id], rows[ids[i]])
          decreases rest
        {
          FirstExists(rows, rest);
          var id :| id in rest && forall other | other in rest :: !Before(rows[other], rows[id]);
          ids, rest := ids + [id], rest - {id};
        }
      }
      rows := ClaimAll(rows, ids, now);
    }

    /** One publishing row becomes sent, with the time; every other row and every other state is left alone. */
    method MarkOutboxSent(id: nat, db: Db) returns (ok: bool)
      modifies this`rows
      ensures rows == (if db.Took() then Execute(old(rows), MarkSent(id, now)) else old(rows)) == Perform(old(rows), id, RecordSent(db), now)
      ensures rows.Keys == old(rows).Keys && forall x | x in rows && x != id :: rows[x] == old(rows)[x]
      ensures id in rows && rows[id] != old(rows)[id] ==>
                db.Took() && old(rows)[id].state.Publishing? && rows[id].state.Sent? && rows[id].sentAt == Some(now)
                && rows[id].attempts == old(rows)[id].attempts && SameContent(old(rows)[id], rows[id])
      ensures ok <==> db.Fine? && id in old(rows) && old(rows)[id].state.Publishing?
      ensures db.Took() && id in rows && old(rows)[id].state.Publishing? ==>
                rows[id] == old(rows)[id].(state := Sent, sentAt := Some(now), updatedAt := now)
      ensures ok ==> rows[id].state.Sent?
    {
      ok := db.Fine? && id in rows && rows[id].state.Publishing?;
      if db.Took() && id in rows {
        rows := rows[id := MarkedSent(rows[id], now)];
      }
    }

    /** One publishing row becomes failed, or dead-lettered when its attempts are used up. */
    method MarkOutboxPublishFailed(id: nat, next: int, db: Db) returns (ok: bool)
      modifies this`rows
      ensures rows == (if db.Took() then Execute(old(rows), MarkFailed(id, now, next)) else old(rows))
                   == Perform(old(rows), id, RecordFailure(next, db), now)
      ensures rows.Keys == old(rows).Keys && forall x | x in rows && x != id :: rows[x] == old(rows)[x]
      ensures id in rows && rows[id] != old(rows)[id] ==>
                && db.Took() && old(rows)[id].state.Publishing?
                && (rows[id].state.DeadLetter? <==> rows[id].attempts >= MAX_ATTEMPTS)
                && (rows[id].state.Failed? <==> rows[id].attempts < MAX_ATTEMPTS)
                && rows[id].availableAt == next && rows[id].attempts == old(rows)[id].attempts
                && SameContent(old(rows)[id], rows[id])
      ensures ok <==> db.Fine? && id in old(rows) && old(rows)[id].state.Publishing?
      ensures ok ==> rows[id].state.Failed? || rows[id].state.DeadLetter?
      ensures db.Took() && id in rows && old(rows)[id].state.Publishing? ==>
                rows[id] == old(rows)[id].(state := if old(rows)[id].attempts >= MAX_ATTEMPTS then DeadLetter else Outbox.Failed,
                                           availableAt := next, updatedAt := now)
    {
      ok := db.Fine? && id in rows && rows[id].state.Publishing?;
      if db.Took() && id in rows {
        rows := rows[id := MarkedFailed(rows[id], now, next)];
      }
    }

    /** Refuses a lease that is not positive; no stuck row is left, and nothing else changes. */
    method ResetStuckPublishing(lease: int, db: Db) returns (ok: bool)
      modifies this`rows
      ensures ok <==> lease > 0 && db.Fine?
      ensures rows == if lease > 0 && db.Took() then Execute(old(rows), ResetStuck(now, lease)) else old(rows)
      ensures rows.Keys == old(rows).Keys
      ensures ok ==> forall id | id in rows :: !Stuck(rows[id], now, lease)
      ensures forall id | id in rows && rows[id] != old(rows)[id] ::
                rows[id] == old(rows)[id].(state := Pending, availableAt := now, updatedAt := now)
      ensures forall id | id in rows && rows[id] != old(rows)[id] ::
                && Stuck(old(rows)[id], now, lease) && rows[id].state.Pending?
                && rows[id].attempts == old(rows)[id].attempts && SameContent(old(rows)[id], rows[id])
    {
      ok := lease > 0 && db.Fine?;
      if lease > 0 && db.Took() {
        rows := ResetAll(rows, now, lease);
      }
    }

    /** Refuses a retention that is not positive; removes exactly the sent rows older than it. */
    method DeleteSentOutboxOlderThan(retention: int, db: Db) returns (ok: bool)
      modifies this`rows
      ensures ok <==> retention > 0 && db.Fine?
      ensures rows == if retention > 0 && db.Took() then Execute(old(rows), DeleteSent(now, retention)) else old(rows)
      ensures forall id | id in rows :: id in old(rows) && rows[id] == old(rows)[id]
      ensures forall id | id in old(rows) && id !in rows :: Expired(old(rows)[id], now, retention)
      ensures ok ==> forall id | id in rows :: !Expired(rows[id], now, retention)
    {
      ok := retention > 0 && db.Fine?;
      if retention > 0 && db.Took() {
        rows := DeleteExpired(rows, now, retention);
      }
    }
  }

  class OutboxDispatcher {
    const repo: Repository
    var config: Config

    constructor (repo: Repository, config: Config)
      ensures this.repo == repo && this.config == config
    {
      this.repo, this.config := repo, config;
    }

    predicate Configured()
      reads this`config
    {
      && config.pollInterval > 0 && config.batchSize > 0 && config.retention > 0 && config.reconcileEvery > 0
      && 0 < config.backoffBase <= config.backoffMax && config.stuckLease >= DEFAULT_STUCK_LEASE
    }

    /** Fills in every unusable setting and keeps every usable one. */
    method WithDefaults()
      modifies this`config
      ensures Configured()
      ensures config.stuckLease as int >= CLAIM_LEASE
      ensures old(Configured()) ==> config == old(config)
      ensures IsOr(config.pollInterval, old(config.pollInterval), DEFAULT_POLL_INTERVAL)
      ensures IsOr(config.batchSize, old(config.batchSize), DEFAULT_BATCH_SIZE)
      ensures IsOr(config.backoffBase, old(config.backoffBase), DEFAULT_BACKOFF_BASE)
      ensures IsOr(config.retention, old(config.retention), DEFAULT_RETENTION)
      ensures IsOr(config.reconcileEvery, old(config.reconcileEvery), DEFAULT_RECONCILE_EVERY)
      ensures config.stuckLease == if old(config.stuckLease) < DEFAULT_STUCK_LEASE then DEFAULT_STUCK_LEASE else old(config.stuckLease)
      ensures config.backoffMax as int ==
                var max := if old(config.backoffMax) > 0 then old(config.backoffMax) else DEFAULT_BACKOFF_MAX;
                if max < config.backoffBase then config.backoffBase as int else max as int
    {
      var c := config;
      if c.pollInterval <= 0 { c := c.(pollInterval := DEFAULT_POLL_INTERVAL); }
      if c.batchSize <= 0 { c := c.(batchSize := DEFAULT_BATCH_SIZE); }
      if c.backoffBase <= 0 { c := c.(backoffBase := DEFAULT_BACKOFF_BASE); }
      if c.backoffMax <= 0 { c := c.(backoffMax := DEFAULT_BACKOFF_MAX); }
      if c.backoffMax < c.backoffBase { c := c.(backoffMax := c.backoffBase); }
      if c.stuckLease < DEFAULT_STUCK_LEASE { c := c.(stuckLease := DEFAULT_STUCK_LEASE); }
      if c.retention <= 0 { c := c.(retention := DEFAULT_RETENTION); }
      if c.reconcileEvery <= 0 { c := c.(reconcileEvery := DEFAULT_RECONCILE_EVERY); }
      config := c;
    }

    /**
     Doubling in 64-bit arithmetic with the cap tested before each step: the
     result is the unbounded formula, and no step overflows. Settings that are
     not positive are replaced first.
     */
    method Backoff(attempts: int64) returns (delay: int64)
      modifies this`config
      ensures config == Effective(old(config))
      ensures delay as int == DelayAfter(old(config), attempts as int)
    {
      var n := if attempts < 0 then 0 else attempts;
      if config.backoffBase <= 0 { config := config.(backoffBase := DEFAULT_BACKOFF_BASE); }
      if config.backoffMax <= 0 { config := config.(backoffMax := DEFAULT_BACKOFF_MAX); }
      var base, max := config.backoffBase, config.backoffMax;
      if base >= max {
        BaseTimesPow2(base as int, n as int);
        return max;
      }
      delay := base;
      var i: int64 := 0;
      while i < n
        invariant 0 <= i <= n
        invariant 0 < delay <= max
        invariant delay as int == base as int * Pow2(i as int)
      {
        if delay > max / 2 {
          CapReached(base as int, max as int, i as int, n as int);
          return max;
        }
        delay := delay * 2;
        i := i + 1;
      }
      if delay > max {
        return max;
      }
    }

    /** One event: the effects are exactly those of the specification, in that order. */
    method DispatchEvent(e: Event, env: EventEnv) returns (error: Option<DispatchError>, effects: seq<Effect>)
      requires e.row.attempts <= MAX_INT64
      modifies repo, this`config
      ensures repo.now == old(repo.now) + env.elapsed
      ensures Effective(config) == Effective(old(config))
      ensures effects == Effects(e.row, env, repo.now, DelayAfter(config, e.row.attempts))
      ensures repo.rows == PerformAll(old(repo.rows), e.id, effects, repo.now)
      ensures error.None? <==> Message(e.row).Some? && env.confirm.Acked? && env.mark.Fine?
                               && e.id in old(repo.rows) && old(repo.rows)[e.id].state.Publishing?
      ensures error.None? ==> e.id in repo.rows && repo.rows[e.id].state.Sent?
      ensures error == Some(PayloadInvalid) <==> Message(e.row).None?
      ensures Message(e.row).Some? ==>
                && (error == Some(PublishFailed) <==> env.confirm.Broken?) && (error == Some(ConfirmRejected) <==> env.confirm.Nacked?)
                && (error == Some(Unknown) <==> env.confirm.Interrupted?)
    {
      hide Message;
      repo.Wait(env.elapsed);
      ghost var before := repo.rows;
      var ok;
      if Message(e.row).None? {
        ok := repo.MarkOutboxPublishFailed(e.id, repo.now, env.mark);
        effects := [RecordFailure(repo.now, env.mark)];
        PerformOne(before, e.id, effects[0], repo.now);
        return Some(PayloadInvalid), effects;
      }
      effects := [Send(Message(e.row).value, env.confirm)];
      match env.confirm {
        case Interrupted(_) =>
          error := Some(Unknown);
          PerformOne(before, e.id, effects[0], repo.now);
        case Broken(_) =>
          var delay := Backoff(e.row.attempts as int64);
          ok := repo.MarkOutboxPublishFailed(e.id, repo.now + delay as int, env.mark);
          effects := effects + [RecordFailure(repo.now + delay as int, env.mark)];
          error := Some(PublishFailed);
          PerformTwo(before, e.id, effects[0], effects[1], repo.now);
        case Nacked =>
          var delay := Backoff(e.row.attempts as int64);
          ok := repo.MarkOutboxPublishFailed(e.id, repo.now + delay as int, env.mark);
          effects := effects + [RecordFailure(repo.now + delay as int, env.mark)];
          error := Some(ConfirmRejected);
          PerformTwo(before, e.id, effects[0], effects[1], repo.now);
        case Acked =>
          ok := repo.MarkOutboxSent(e.id, env.mark);
          effects := effects + [RecordSent(env.mark)];
          error := if ok then None else Some(MarkSentFailed);
          PerformTwo(before, e.id, effects[0], effects[1], repo.now);
      }
    }

    /** Dispatches claimed events in order, looking at the context before each. */
    method DispatchAll(events: seq<Event>, env: BatchEnv, ghost start: Table, log0: seq<Entry>, ghost limit: int,
                       looks0: nat, count0: nat)
      returns (log: seq<Entry>, looks: nat, count: nat, done: bool)
      requires repo.rows == Replay(start, log0) && Legal(start, log0, limit)
      requires forall e | e in events :: e.row.attempts <= MAX_INT64
      modifies repo, this`config
      ensures Effective(config) == Effective(old(config))
      ensures repo.rows == Replay(start, log) && Legal(start, log, limit)
      ensures ClaimedEvents(log) == ClaimedEvents(log0) && Batches(log) == Batches(log0)
      ensures DispatchedEvents(log0) <= DispatchedEvents(log) <= DispatchedEvents(log0) + events
      ensures !done ==> DispatchedEvents(log) == DispatchedEvents(log0) + events
      ensures done ==> exists n :: env.done(n)
      ensures Budget(repo.rows) == Budget(old(repo.rows))
    {
      hide Effects, PerformAll, Replay, ClaimedEvents, Batches, DispatchedEvents, Legal;
      log, looks, count := log0, looks0, count0;
      for i := 0 to |events|
        invariant Effective(config) == Effective(old(config))
        invariant repo.rows == Replay(start, log) && Legal(start, log, limit)
        invariant ClaimedEvents(log) == ClaimedEvents(log0) && Batches(log) == Batches(log0)
        invariant DispatchedEvents(log) == DispatchedEvents(log0) + events[..i]
        invariant Budget(repo.rows) == Budget(old(repo.rows))
      {
        if env.done(looks) {
          return log, looks, count, true;
        }
        var e := events[i];
        var delay := DelayAfter(config, e.row.attempts);
        ghost var before := repo.rows;
        var _, effects := DispatchEvent(e, env.event(count));
        PerformAllKeepsAttempts(before, e.id, effects, repo.now);
        var entry := Dispatched(e, env.event(count), repo.now, delay);
        Logged(start, log, entry);
        log, looks, count := log + [entry], looks + 1, count + 1;
        assert events[..i + 1] == events[..i] + [e];
      }
      assert events[..|events|] == events;
      done := false;
    }

    /**
     Claims and dispatches until the backlog is drained. The log determines the
     table; what was dispatched is a prefix of what was claimed, and all of it
     unless the context ended; every claim but the last returned a full batch.
     Each claimed row costs one attempt, so even a table of poison rows that are
     immediately claimable again is drained after finitely many claims.
     */
    method DispatchBatch(env: BatchEnv) returns (log: seq<Entry>, stop: Stop)
      requires config.batchSize > 0
      modifies repo, this`config
      ensures repo.rows == Replay(old(repo.rows), log) && Legal(old(repo.rows), log, config.batchSize as int)
      ensures DispatchedEvents(log) <= ClaimedEvents(log)
      ensures !stop.ContextDone? ==> DispatchedEvents(log) == ClaimedEvents(log)
      ensures stop.ContextDone? ==> exists n :: env.done(n)
      ensures stop.ClaimFailed? ==> exists n :: env.claim(n).Fault?
      ensures FullUntilLast(Batches(log), config.batchSize as int)
      ensures stop.Drained? ==> Batches(log) != [] && |Batches(log)[|Batches(log)| - 1]| < config.batchSize as int
      ensures Budget(repo.rows) + |ClaimedEvents(log)| <= Budget(old(repo.rows))
    {
      hide Replay, ClaimedEvents, Batches, DispatchedEvents, Budget, IsBatch, ClaimAll, LegalEntry;
      log := [];
      EmptyLog(repo.rows);
      ghost var start := repo.rows;
      var limit := config.batchSize as int;
      var looks, claims, events := 0, 0, 0;
      while true
        invariant Effective(config) == Effective(old(config))
        invariant repo.rows == Replay(start, log) && Legal(start, log, limit)
        invariant DispatchedEvents(log) == ClaimedEvents(log)
        invariant forall i | 0 <= i < |Batches(log)| :: |Batches(log)[i]| == limit
        invariant Budget(repo.rows) + |ClaimedEvents(log)| <= Budget(start)
        decreases Budget(repo.rows)
      {
        if env.done(looks) {
          return log, ContextDone;
        }
        var db := env.claim(claims);
        looks, claims := looks + 1, claims + 1;
        var batch, entry := Claim(limit, db, env.locked(claims - 1), start, log);
        log := log + [entry];
        if db.Fault? {
          return log, ClaimFailed;
        }
        if batch == [] {
          return log, Drained;
        }
        var done;
        log, looks, events, done := DispatchAll(batch, env, start, log, limit, looks, events);
        if done {
          return log, ContextDone;
        }
        if |batch| < limit {
          return log, Drained;
        }
      }
    }

    /** One claim: the rows as they are after the statement, and what it costs. */
    method Claim(limit: int, db: Db, locked: set<nat>, ghost start: Table, ghost log: seq<Entry>) returns (batch: seq<Event>, entry: Entry)
      requires limit > 0 && repo.rows == Replay(start, log) && Legal(start, log, limit)
      modifies repo`rows
      ensures repo.rows == Replay(start, log + [entry]) && Legal(start, log + [entry], limit)
      ensures |batch| <= limit && forall e | e in batch :: e.row.attempts <= MAX_ATTEMPTS
      ensures if db.Fine? then entry == ClaimedBatch(batch, repo.now, locked) else entry.LostClaim? && batch == []
      ensures ClaimedEvents(log + [entry]) == ClaimedEvents(log) + batch
      ensures Batches(log + [entry]) == Batches(log) + if db.Fine? then [batch] else []
      ensures DispatchedEvents(log + [entry]) == DispatchedEvents(log)
      ensures Budget(repo.rows) + |batch| <= Budget(old(repo.rows))
    {
      ghost var before := repo.rows;
      var ids := repo.ClaimOutboxBatch(limit, db, locked);
      ClaimSpendsBudget(before, ids, repo.now);
      hide Claimable, Before, Budget, Legal, Replay;
      if db.Fault? {
        batch, entry := [], LostClaim(ids, repo.now, locked);
      } else {
        batch := seq(|ids|, i requires 0 <= i < |ids| && ids[i] in repo.rows reads repo => Event(ids[i], repo.rows[ids[i]]));
        entry := ClaimedBatch(batch, repo.now, locked);
        assert Ids(batch) == ids;
      }
      Logged(start, log, entry);
    }

    /** Recovers abandoned claims and drops old sent rows; database errors only postpone either. */
    method Reconcile(done: bool, reset: Db, delete: Db)
      modifies repo`rows
      ensures done ==> repo.rows == old(repo.rows)
      ensures !done ==>
                var recovered := if config.stuckLease > 0 && reset.Took()
                                 then ResetAll(old(repo.rows), repo.now, config.stuckLease as int) else old(repo.rows);
                repo.rows == if config.retention > 0 && delete.Took()
                             then DeleteExpired(recovered, repo.now, config.retention as int) else recovered
    {
      if done {
        return;
      }
      var _ := repo.ResetStuckPublishing(config.stuckLease as int, reset);
      var _ := repo.DeleteSentOutboxOlderThan(config.retention as int, delete);
    }
  }

  lemma ScaledMonotone(base: int, p: int, q: int)
    requires base > 0 && p <= q
    ensures base * p <= base * q
  {}

  lemma BaseTimesPow2(base: int, n: nat)
    requires base > 0
    ensures base * Pow2(n) >= base
  {}

  lemma CapReached(base: int, max: int, i: nat, n: nat)
    requires 0 < base && 0 < max && i < n && base * Pow2(i) > max / 2
    ensures base * Pow2(n) >= max
  {
    Pow2Monotone(i + 1, n);
    ScaledMonotone(base, 2 * Pow2(i), Pow2(n));
  }
}
