/**
 The worker: what one deploy.jobs delivery makes it do. ProcessDeployment and
 the message loop are sequences of calls with early returns; each is given as
 the list of calls it makes, in order, with their outcomes.
 */
module Worker {
  import opened Wrappers
  import opened Contract
  import opened Faults
  import opened Status

  // ---------- The worker's own deployments table ----------

  datatype Row = Row(
    cloneUrl: string,
    status: Status,
    retryCount: int64,
    imageTag: string,
    outputUrl: string,
    reason: Reason)

  type Rows = map<string, Row>

  function ImageTag(id: string): string { "deploy-" + id + ":latest" }

  // INSERT ... ON CONFLICT DO UPDATE: keeps the url and message of an old row.
  function Inserted(rows: Rows, req: BuildRequest): Rows {
    var id := req.deploymentId;
    var row := Row(req.cloneUrl, Pending, req.retryCount, ImageTag(id), "", NoReason);
    rows[id := if id in rows then row.(outputUrl := rows[id].outputUrl, reason := rows[id].reason) else row]
  }

  // ---------- One delivery ----------

  datatype Image = Built | Broken | Mismatch

  // Everything outside the worker that one delivery can meet.
  datatype Env = Env(
    granted: bool,             // clone credential fetched
    insert: Db,
    building: Db,
    announceBuilding: Publish,
    tagRead: bool,             // ReadImageTag found a row
    failed: Db,
    checkout: bool,
    appDir: bool,
    prepared: Option<bool>,    // Some(is the detected builder static)
    image: Image,
    fallback: bool,            // retryAsDynamic succeeded
    upload: Option<string>,
    url: Db,
    finished: Db,
    announceSuccess: Publish,
    canceled: Db,
    announceCanceled: Publish,
    republish: Publish,
    settle: bool)              // ack or nack reached the broker

  datatype Effect =
    | FetchCredential(granted: bool)
    | Insert(db: Db)
    | MarkBuilding(db: Db)
    | ReadTag(found: bool)
    | MarkFailed(reason: Reason, db: Db)
    | SetOutputUrl(url: string, db: Db)
    | MarkFinished(url: string, db: Db)
    | MarkCanceled(db: Db)
    | Announce(update: Update, publish: Publish)
    | Completed                                        // processing returned nil
    | GaveUp                                           // the retry limit is reached
    | Republish(request: BuildRequest, publish: Publish)
    | Ack(ok: bool)
    | Discard(ok: bool)                                // nack without requeue
    | Requeue(ok: bool)                                // nack with requeue

  // A stretch of code: the calls it made, and whether it returned nil.
  datatype Outcome = Outcome(trace: seq<Effect>, ok: bool) {
    function Then(next: Outcome): Outcome {
      if ok then Outcome(trace + next.trace, next.ok) else this
    }
  }

  function Call(e: Effect, ok: bool): Outcome { Outcome([e], ok) }

  function Fails(reason: Reason, env: Env): Outcome { Outcome([MarkFailed(reason, env.failed)], false) }

  function AnnounceBuilding(req: BuildRequest, env: Env): Effect {
    Announce(Update(req.deploymentId, Building, "", NoReason), env.announceBuilding)
  }

  function AnnounceSuccess(req: BuildRequest, url: string, env: Env): Effect {
    Announce(Update(req.deploymentId, Success, url, NoReason), env.announceSuccess)
  }

  function AnnounceCanceled(req: BuildRequest, env: Env): Effect {
    Announce(Update(req.deploymentId, Canceled, "", RetriesExhausted), env.announceCanceled)
  }

  /** prepareAndMarkBuilding: only the first attempt inserts the row. */
  function Prepare(req: BuildRequest, env: Env): Outcome {
    var insert := if req.retryCount == 0 then Call(Insert(env.insert), env.insert.Fine?) else Outcome([], true);
    insert.Then(Call(MarkBuilding(env.building), env.building.Fine?))
          .Then(Call(AnnounceBuilding(req, env), env.announceBuilding.Returned()))
  }

  function Finish(req: BuildRequest, url: string, env: Env): Outcome {
    Call(MarkFinished(url, env.finished), env.finished.Fine?)
    .Then(Call(AnnounceSuccess(req, url, env), env.announceSuccess.Returned()))
  }

  function UploadAndFinalize(req: BuildRequest, env: Env): Outcome {
    if env.upload.None? then Outcome([], false)
    else Call(SetOutputUrl(env.upload.value, env.url), env.url.Fine?).Then(Finish(req, env.upload.value, env))
  }

  /** From the checkout on; a static build that turns out to need a server is finished as a dynamic one. */
  function Build(req: BuildRequest, env: Env): Outcome {
    if !env.checkout then Fails(CheckoutFailed, env)
    else if !env.appDir then Fails(AppDirUnresolved, env)
    else if env.prepared.None? then Fails(PrepareFailed, env)
    else if env.image.Broken? then Fails(BuildFailed, env)
    else if env.image.Mismatch? && !env.fallback then Fails(ServerSideRendering, env)
    else if env.prepared.value && env.image.Built? then UploadAndFinalize(req, env)
    else Finish(req, "", env)
  }

  function Process(req: BuildRequest, env: Env): Outcome {
    Prepare(req, env)
    .Then(Call(ReadTag(env.tagRead), true))
    .Then(if env.tagRead then Build(req, env) else Fails(TagUnreadable, env))
  }

  /** The attempt proper: no credential, no processing. */
  function Attempt(req: BuildRequest, env: Env): Outcome {
    Call(FetchCredential(env.granted), env.granted).Then(Process(req, env))
  }

  /** A retry that is no longer valid is refused before it reaches the broker. */
  function RepublishOutcome(req: BuildRequest, env: Env): Publish {
    if Valid(Retry(req)) then env.republish else Refused(false)
  }

  predicate LimitReached(req: BuildRequest, limit: int) { Retry(req).retryCount as int >= limit }

  function Closing(req: BuildRequest, limit: int, env: Env, ok: bool): seq<Effect> {
    if ok then [Completed, Ack(env.settle)]
    else if LimitReached(req, limit) then
      [GaveUp, MarkCanceled(env.canceled), AnnounceCanceled(req, env), Discard(env.settle)]
    else
      var p := RepublishOutcome(req, env);
      [Republish(Retry(req), p), if p.Returned() then Ack(env.settle) else Requeue(env.settle)]
  }

  /** All calls of one turn of the message loop for a well-formed delivery. */
  function Delivery(req: BuildRequest, limit: int, env: Env): seq<Effect> {
    var a := Attempt(req, env);
    a.trace + Closing(req, limit, env, a.ok)
  }

  // ---------- Effects on the worker's surroundings ----------

  datatype Shop = Shop(
    rows: Rows,
    jobs: seq<Envelope>,
    dlq: seq<Envelope>,
    updates: seq<Update>,
    done: seq<BuildRequest>)

  function SetStatus(rows: Rows, id: string, status: Status, db: Db): Rows {
    if db.Took() && id in rows then rows[id := rows[id].(status := status)] else rows
  }

  function PerformRows(rows: Rows, req: BuildRequest, e: Effect): Rows {
    var id := req.deploymentId;
    match e
    case Insert(db) => if db.Took() then Inserted(rows, req) else rows
    case MarkBuilding(db) => SetStatus(rows, id, Building, db)
    case MarkFailed(reason, db) =>
      if db.Took() && id in rows then rows[id := rows[id].(status := Failed, reason := reason)] else rows
    case SetOutputUrl(url, db) =>
      if db.Took() && id in rows then rows[id := rows[id].(outputUrl := url)] else rows
    case MarkFinished(url, db) =>
      if db.Took() && id in rows
      then rows[id := rows[id].(status := Success, outputUrl := url, reason := NoReason)] else rows
    case MarkCanceled(db) =>
      if db.Took() && id in rows then rows[id := rows[id].(status := Canceled, reason := RetriesExhausted)] else rows
    case _ => rows
  }

  /** A delivery that is not settled, or is requeued, is delivered again from its old place at the head. */
  function Perform(s: Shop, m: Envelope, req: BuildRequest, e: Effect): Shop {
    match e
    case Announce(update, p) => if p.Arrived() then s.(updates := s.updates + [update]) else s
    case Completed => s.(done := s.done + [JobOf(req)])
    case Republish(next, p) =>
      if p.Arrived() && Publishing(next).Ok? then s.(jobs := s.jobs + [Publishing(next).value]) else s
    case Ack(ok) => if ok then s else s.(jobs := [m] + s.jobs)
    case Discard(ok) => if ok then s.(dlq := s.dlq + [m]) else s.(jobs := [m] + s.jobs)
    case Requeue(_) => s.(jobs := [m] + s.jobs)
    case _ => s.(rows := PerformRows(s.rows, req, e))
  }

  function PerformAll(s: Shop, m: Envelope, req: BuildRequest, trace: seq<Effect>): Shop {
    if trace == [] then s
    else Perform(PerformAll(s, m, req, trace[..|trace| - 1]), m, req, trace[|trace| - 1])
  }

  lemma Performed(s: Shop, m: Envelope, req: BuildRequest, trace: seq<Effect>, e: Effect)
    ensures PerformAll(s, m, req, trace + [e]) == Perform(PerformAll(s, m, req, trace), m, req, e)
  {
    assert (trace + [e])[..|trace|] == trace;
  }

  /** ReadImageTag finds a row only if there is one by then. */
  function Seen(env: Env, rows: Rows, req: BuildRequest): Env {
    var inserted := env.granted && req.retryCount == 0 && env.insert.Took();
    env.(tagRead := env.tagRead && (req.deploymentId in rows || inserted))
  }

  /** One turn of the message loop. */
  function Turn(s: Shop, limit: int, env: Env): Shop
    requires s.jobs != []
  {
    var m := s.jobs[0];
    var popped := s.(jobs := s.jobs[1..]);
    match Receive(m)
    case Err(_) => Perform(popped, m, ZERO_REQUEST, Discard(env.settle))
    case Ok(req) => PerformAll(popped, m, req, Delivery(req, limit, Seen(env, s.rows, req)))
  }

  type Tape = nat -> Env

  /** n turns from position at of the tape on; an empty queue just waits. */
  function Turns(s: Shop, limit: int, tape: Tape, at: nat, n: nat): Shop
    decreases n
  {
    if n == 0 || s.jobs == [] then s
    else Turns(Turn(s, limit, tape(at)), limit, tape, at + 1, n - 1)
  }

  lemma {:induction false} TurnsStep(s: Shop, limit: int, tape: Tape, at: nat, n: nat)
    ensures var before := Turns(s, limit, tape, at, n);
            Turns(s, limit, tape, at, n + 1) ==
              if before.jobs == [] then before else Turn(before, limit, tape(at + n))
    decreases n
  {
    hide Turn;
    if n != 0 && s.jobs != [] {
      TurnsStep(Turn(s, limit, tape(at)), limit, tape, at + 1, n - 1);
    }
  }

  // ---------- Traces piece by piece ----------

  lemma {:induction false} PerformedConcat(s: Shop, m: Envelope, req: BuildRequest, a: seq<Effect>, b: seq<Effect>)
    ensures PerformAll(s, m, req, a + b) == PerformAll(PerformAll(s, m, req, a), m, req, b)
  {
    hide Perform;
    if b == [] {
      assert a + b == a;
    } else {
      var shorter, e := b[..|b| - 1], b[|b| - 1];
      PerformedConcat(s, m, req, a, shorter);
      assert a + b == (a + shorter) + [e] && b == shorter + [e];
      Performed(s, m, req, a + shorter, e);
      Performed(PerformAll(s, m, req, a), m, req, shorter, e);
    }
  }

  // Calls that leave the queue of jobs alone.
  predicate Quiet(trace: seq<Effect>) {
    forall i | 0 <= i < |trace| ::
      var e := trace[i];
      !(e.Completed? || e.Republish? || e.Ack? || e.Discard? || e.Requeue?)
  }

  lemma AttemptIsQuiet(req: BuildRequest, env: Env)
    ensures Quiet(Attempt(req, env).trace)
  {
    PrepareIsQuiet(req, env);
    BuildIsQuiet(req, env);
    hide Prepare, Build;
  }

  lemma PrepareIsQuiet(req: BuildRequest, env: Env)
    ensures Quiet(Prepare(req, env).trace)
  {}

  lemma BuildIsQuiet(req: BuildRequest, env: Env)
    ensures Quiet(Build(req, env).trace)
  {
    FinishIsQuiet(req, "", env);
    if env.upload.Some? {
      FinishIsQuiet(req, env.upload.value, env);
    }
    hide Finish;
  }

  lemma FinishIsQuiet(req: BuildRequest, url: string, env: Env)
    ensures Quiet(Finish(req, url, env).trace)
  {}

  lemma {:induction false} QuietLeavesQueues(s: Shop, m: Envelope, req: BuildRequest, trace: seq<Effect>)
    requires Quiet(trace)
    ensures var after := PerformAll(s, m, req, trace);
            after.jobs == s.jobs && after.dlq == s.dlq && after.done == s.done
  {
    if trace != [] {
      QuietLeavesQueues(s, m, req, trace[..|trace| - 1]);
    }
  }

  // The updates and rows a trace leaves, without the queues.
  function Updates(trace: seq<Effect>): seq<Update> {
    if trace == [] then []
    else
      var e, before := trace[|trace| - 1], Updates(trace[..|trace| - 1]);
      if e.Announce? && e.publish.Arrived() then before + [e.update] else before
  }

  function RowsAfter(rows: Rows, req: BuildRequest, trace: seq<Effect>): Rows {
    if trace == [] then rows
    else PerformRows(RowsAfter(rows, req, trace[..|trace| - 1]), req, trace[|trace| - 1])
  }

  // The status that a call writes, when it takes effect.
  function Mark(e: Effect): Option<Status> {
    match e
    case Insert(db) => if db.Took() then Some(Pending) else None
    case MarkBuilding(db) => if db.Took() then Some(Building) else None
    case MarkFailed(_, db) => if db.Took() then Some(Failed) else None
    case MarkFinished(_, db) => if db.Took() then Some(Success) else None
    case MarkCanceled(db) => if db.Took() then Some(Canceled) else None
    case _ => None
  }

  // The url that a call writes, when it takes effect.
  function WrittenUrl(e: Effect): Option<string> {
    match e
    case SetOutputUrl(url, db) => if db.Took() then Some(url) else None
    case MarkFinished(url, db) => if db.Took() then Some(url) else None
    case _ => None
  }

  // The error text that a call writes, when it takes effect.
  function WrittenReason(e: Effect): Option<Reason> {
    match e
    case MarkFailed(reason, db) => if db.Took() then Some(reason) else None
    case MarkFinished(_, db) => if db.Took() then Some(NoReason) else None
    case MarkCanceled(db) => if db.Took() then Some(RetriesExhausted) else None
    case _ => None
  }

  // Whether a call writes what the job says: clone url, count and image tag.
  function WrittenJob(e: Effect): Option<()> {
    if e.Insert? && e.db.Took() then Some(()) else None
  }

  // What the last call that wrote such a value has written.
  function LastWritten<T>(trace: seq<Effect>, wrote: Effect -> Option<T>): Option<T> {
    if trace == [] then None
    else if wrote(trace[|trace| - 1]).Some? then wrote(trace[|trace| - 1])
    else LastWritten(trace[..|trace| - 1], wrote)
  }

  lemma {:induction false} LastWrittenIsLast<T>(trace: seq<Effect>, wrote: Effect -> Option<T>)
    ensures match LastWritten(trace, wrote)
            case None => forall i | 0 <= i < |trace| :: wrote(trace[i]).None?
            case Some(v) => exists k | 0 <= k < |trace| ::
              wrote(trace[k]) == Some(v) && forall i | k < i < |trace| :: wrote(trace[i]).None?
  {
    if trace != [] {
      var n := |trace| - 1;
      var shorter := trace[..n];
      LastWrittenIsLast(shorter, wrote);
      if wrote(trace[n]).None? && LastWritten(shorter, wrote).Some? {
        var k :| 0 <= k < |shorter| && wrote(shorter[k]) == LastWritten(shorter, wrote)
                 && forall i | k < i < |shorter| :: wrote(shorter[i]).None?;
        assert wrote(trace[k]) == LastWritten(trace, wrote);
        assert forall i | k < i < |trace| :: i == n || wrote(trace[i]) == wrote(shorter[i]);
      }
    }
  }

  function Otherwise<T>(o: Option<T>, v: T): T { if o.Some? then o.value else v }

  lemma WrittenByOne(rows: Rows, req: BuildRequest, e: Effect)
    requires req.deploymentId in rows
    ensures var id, after := req.deploymentId, PerformRows(rows, req, e);
            && after.Keys == rows.Keys && (forall x | x in rows && x != id :: after[x] == rows[x])
            && after[id].status == Otherwise(Mark(e), rows[id].status)
            && after[id].outputUrl == Otherwise(WrittenUrl(e), rows[id].outputUrl)
            && after[id].reason == Otherwise(WrittenReason(e), rows[id].reason)
            && SameJob(after[id], if WrittenJob(e).Some? then Job(req) else rows[id])
  {}

  // The row that a request stands for.
  function Job(req: BuildRequest): Row {
    Row(req.cloneUrl, Pending, req.retryCount, "deploy-" + req.deploymentId + ":latest", "", NoReason)
  }

  /** An insert makes that row of nothing, and keeps only url and error text of an earlier one. */
  lemma InsertedExactly(rows: Rows, req: BuildRequest)
    ensures var id := req.deploymentId;
            Inserted(rows, req) == rows[id := if id in rows then Job(req).(outputUrl := rows[id].outputUrl, reason := rows[id].reason) else Job(req)]
  {}

  predicate SameJob(a: Row, b: Row) { a.cloneUrl == b.cloneUrl && a.retryCount == b.retryCount && a.imageTag == b.imageTag }

  /**
   An existing row has the status of the last call that wrote one and took
   effect, whatever it was before, and likewise the url and the error text:
   rows are not fixed by a final status. An insert renews the rest of it. No
   other row changes.
   */
  lemma {:induction false} LastWriteWins(rows: Rows, req: BuildRequest, trace: seq<Effect>)
    requires req.deploymentId in rows
    ensures var id, after := req.deploymentId, RowsAfter(rows, req, trace);
            && after.Keys == rows.Keys && (forall x | x in rows && x != id :: after[x] == rows[x])
            && after[id].status == Otherwise(LastWritten(trace, Mark), rows[id].status)
            && after[id].outputUrl == Otherwise(LastWritten(trace, WrittenUrl), rows[id].outputUrl)
            && after[id].reason == Otherwise(LastWritten(trace, WrittenReason), rows[id].reason)
            && SameJob(after[id], if LastWritten(trace, WrittenJob).Some? then Job(req) else rows[id])
  {
    hide PerformRows, Mark, WrittenUrl, WrittenReason, WrittenJob, Job;
    if trace != [] {
      var shorter, e := trace[..|trace| - 1], trace[|trace| - 1];
      LastWriteWins(rows, req, shorter);
      WrittenByOne(RowsAfter(rows, req, shorter), req, e);
    }
  }

  lemma {:induction false} PerformedRowsAndUpdates(s: Shop, m: Envelope, req: BuildRequest, trace: seq<Effect>)
    ensures var after := PerformAll(s, m, req, trace);
            after.rows == RowsAfter(s.rows, req, trace) && after.updates == s.updates + Updates(trace)
  {
    if trace != [] {
      PerformedRowsAndUpdates(s, m, req, trace[..|trace| - 1]);
    }
  }

  lemma {:induction false} UpdatesConcat(a: seq<Effect>, b: seq<Effect>)
    ensures Updates(a + b) == Updates(a) + Updates(b)
  {
    if b == [] {
      assert a + b == a;
    } else {
      UpdatesConcat(a, b[..|b| - 1]);
      assert (a + b)[..|a + b| - 1] == a + b[..|b| - 1];
    }
  }

  lemma {:induction false} RowsAfterConcat(rows: Rows, req: BuildRequest, a: seq<Effect>, b: seq<Effect>)
    ensures RowsAfter(rows, req, a + b) == RowsAfter(RowsAfter(rows, req, a), req, b)
  {
    hide PerformRows;
    if b == [] {
      assert a + b == a;
    } else {
      RowsAfterConcat(rows, req, a, b[..|b| - 1]);
      assert (a + b)[..|a + b| - 1] == a + b[..|b| - 1];
    }
  }

  /** What a well-formed delivery leaves in the queues. */
  lemma TurnQueues(s: Shop, limit: int, env: Env)
    requires s.jobs != [] && Receive(s.jobs[0]).Ok?
    ensures var m, req := s.jobs[0], Receive(s.jobs[0]).value;
            var seen := Seen(env, s.rows, req);
            var a, p, after, rest := Attempt(req, seen), RepublishOutcome(req, seen), Turn(s, limit, env), s.jobs[1..];
            if a.ok then
              after.jobs == (if env.settle then rest else s.jobs) && after.dlq == s.dlq && after.done == s.done + [JobOf(req)]
            else if LimitReached(req, limit) then
              && after.jobs == (if env.settle then rest else s.jobs)
              && after.dlq == s.dlq + (if env.settle then [m] else []) && after.done == s.done
            else
              var queued := rest + if p.Arrived() then [Publishing(Retry(req)).value] else [];
              && after.jobs == (if p.Returned() && env.settle then queued else [m] + queued)
              && after.dlq == s.dlq && after.done == s.done
    ensures var req := Receive(s.jobs[0]).value;
            var trace := Delivery(req, limit, Seen(env, s.rows, req));
            Turn(s, limit, env).rows == RowsAfter(s.rows, req, trace)
            && Turn(s, limit, env).updates == s.updates + Updates(trace)
  {
    hide Attempt, Publishing, Receive, Valid;
    var m, req := s.jobs[0], Receive(s.jobs[0]).value;
    var popped, seen := s.(jobs := s.jobs[1..]), Seen(env, s.rows, req);
    var a := Attempt(req, seen);
    var closing := Closing(req, limit, seen, a.ok);
    PerformedConcat(popped, m, req, a.trace, closing);
    AttemptIsQuiet(req, seen);
    QuietLeavesQueues(popped, m, req, a.trace);
    PerformedRowsAndUpdates(popped, m, req, Delivery(req, limit, seen));
    var mid := PerformAll(popped, m, req, a.trace);
    ClosingQueues(mid, m, req, limit, seen, a.ok);
  }

  lemma ClosingQueues(s: Shop, m: Envelope, req: BuildRequest, limit: int, env: Env, ok: bool)
    ensures var p, after := RepublishOutcome(req, env), PerformAll(s, m, req, Closing(req, limit, env, ok));
            if ok then
              after.jobs == (if env.settle then s.jobs else [m] + s.jobs) && after.dlq == s.dlq && after.done == s.done + [JobOf(req)]
            else if LimitReached(req, limit) then
              && after.jobs == (if env.settle then s.jobs else [m] + s.jobs)
              && after.dlq == s.dlq + (if env.settle then [m] else []) && after.done == s.done
            else
              var queued := s.jobs + if p.Arrived() then [Publishing(Retry(req)).value] else [];
              && after.jobs == (if p.Returned() && env.settle then queued else [m] + queued)
              && after.dlq == s.dlq && after.done == s.done
  {
    hide Publishing, Valid, Retry, PerformAll, RepublishOutcome;
    if ok {
      PerformedTwo(s, m, req, Completed, Ack(env.settle));
    } else if LimitReached(req, limit) {
      GivingUpQueues(s, m, req, env);
    } else {
      RetryingQueues(s, m, req, env);
    }
  }

  lemma RetryingQueues(s: Shop, m: Envelope, req: BuildRequest, env: Env)
    ensures RepublishOutcome(req, env).Arrived() ==> Publishing(Retry(req)).Ok?
    ensures var p := RepublishOutcome(req, env);
            var after := PerformAll(s, m, req, [Republish(Retry(req), p), if p.Returned() then Ack(env.settle) else Requeue(env.settle)]);
            var queued := s.jobs + if p.Arrived() then [Publishing(Retry(req)).value] else [];
            && after.jobs == (if p.Returned() && env.settle then queued else [m] + queued)
            && after.dlq == s.dlq && after.done == s.done
  {
    var next := Retry(req);
    assert Publishing(next).Ok? <==> Valid(next) by { PublishedIsReceived(next); }
    hide Publishing, Valid, Retry, PerformAll;
    var p := RepublishOutcome(req, env);
    PerformedTwo(s, m, req, Republish(next, p), if p.Returned() then Ack(env.settle) else Requeue(env.settle));
  }

  lemma GivingUpQueues(s: Shop, m: Envelope, req: BuildRequest, env: Env)
    ensures var after := PerformAll(s, m, req, [GaveUp, MarkCanceled(env.canceled), AnnounceCanceled(req, env), Discard(env.settle)]);
            && after.jobs == (if env.settle then s.jobs else [m] + s.jobs)
            && after.dlq == s.dlq + (if env.settle then [m] else []) && after.done == s.done
  {
    hide PerformAll, PerformRows;
    var a, b, c, d := GaveUp, MarkCanceled(env.canceled), AnnounceCanceled(req, env), Discard(env.settle);
    PerformedTwo(s, m, req, a, b);
    PerformedTwo(PerformAll(s, m, req, [a, b]), m, req, c, d);
    PerformedConcat(s, m, req, [a, b], [c, d]);
    assert [a, b, c, d] == [a, b] + [c, d];
  }

  lemma PerformedTwo(s: Shop, m: Envelope, req: BuildRequest, a: Effect, b: Effect)
    ensures PerformAll(s, m, req, [a, b]) == Perform(Perform(s, m, req, a), m, req, b)
  {
    hide Perform;
    assert [a, b] == [a] + [b] && [a] == [] + [a];
    Performed(s, m, req, [], a);
    Performed(s, m, req, [a], b);
  }
}
