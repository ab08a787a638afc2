/**
 The worker as it runs: a repository and a queue that its methods change call
 by call, ProcessDeployment with its early returns, and the message loop. Each
 method is proved to make exactly the calls of its specification in Worker, in
 that order, and to leave exactly the state they lead to.
 */
module WorkerLoop {
  import opened Wrappers
  import opened Contract
  import opened Faults
  import opened Status
  import opened Worker
  import JobRuns

  class DeploymentRepository {
    var rows: Rows

    constructor (rows: Rows)
      ensures this.rows == rows
    {
      this.rows := rows;
    }

    method InsertJob(req: BuildRequest, db: Db) returns (ok: bool)
      modifies this
      ensures rows == PerformRows(old(rows), req, Insert(db)) && ok == db.Fine?
      ensures forall x | x != req.deploymentId :: x in rows <==> x in old(rows)
      ensures forall x | x in rows && x != req.deploymentId :: rows[x] == old(rows)[x]
      ensures !db.Took() ==> rows == old(rows)
      ensures db.Took() ==> req.deploymentId in rows && rows[req.deploymentId].status.Pending?
    {
      if db.Took() {
        var row := Row(req.cloneUrl, Pending, req.retryCount, ImageTag(req.deploymentId), "", NoReason);
        if req.deploymentId in rows {
          var earlier := rows[req.deploymentId];
          row := row.(outputUrl := earlier.outputUrl, reason := earlier.reason);
        }
        rows := rows[req.deploymentId := row];
      }
      ok := db.Fine?;
    }

    method MarkBuilding(req: BuildRequest, db: Db) returns (ok: bool)
      modifies this
      ensures rows == PerformRows(old(rows), req, Effect.MarkBuilding(db)) && ok == db.Fine?
      ensures rows.Keys == old(rows).Keys && forall x | x in rows && x != req.deploymentId :: rows[x] == old(rows)[x]
      ensures !db.Took() ==> rows == old(rows)
      ensures db.Took() && req.deploymentId in rows ==> rows[req.deploymentId].status.Building?
    {
      if db.Took() && req.deploymentId in rows {
        rows := rows[req.deploymentId := rows[req.deploymentId].(status := Building)];
      }
      ok := db.Fine?;
    }

    method MarkFailed(req: BuildRequest, reason: Reason, db: Db) returns (ok: bool)
      modifies this
      ensures rows == PerformRows(old(rows), req, Effect.MarkFailed(reason, db)) && ok == db.Fine?
      ensures rows.Keys == old(rows).Keys && forall x | x in rows && x != req.deploymentId :: rows[x] == old(rows)[x]
      ensures !db.Took() ==> rows == old(rows)
      ensures db.Took() && req.deploymentId in rows ==> rows[req.deploymentId].status.Failed?
    {
      if db.Took() && req.deploymentId in rows {
        rows := rows[req.deploymentId := rows[req.deploymentId].(status := Failed, reason := reason)];
      }
      ok := db.Fine?;
    }

    method MarkCanceled(req: BuildRequest, db: Db) returns (ok: bool)
      modifies this
      ensures rows == PerformRows(old(rows), req, Effect.MarkCanceled(db)) && ok == db.Fine?
      ensures rows.Keys == old(rows).Keys && forall x | x in rows && x != req.deploymentId :: rows[x] == old(rows)[x]
      ensures !db.Took() ==> rows == old(rows)
      ensures db.Took() && req.deploymentId in rows ==> rows[req.deploymentId].status.Canceled?
    {
      if db.Took() && req.deploymentId in rows {
        rows := rows[req.deploymentId := rows[req.deploymentId].(status := Canceled, reason := RetriesExhausted)];
      }
      ok := db.Fine?;
    }

    method UpdateOutputURL(req: BuildRequest, url: string, db: Db) returns (ok: bool)
      modifies this
      ensures rows == PerformRows(old(rows), req, SetOutputUrl(url, db)) && ok == db.Fine?
      ensures rows.Keys == old(rows).Keys && forall x | x in rows && x != req.deploymentId :: rows[x] == old(rows)[x]
      ensures !db.Took() ==> rows == old(rows)
      ensures db.Took() && req.deploymentId in rows ==>
                rows[req.deploymentId] == old(rows)[req.deploymentId].(outputUrl := url)
    {
      if db.Took() && req.deploymentId in rows {
        rows := rows[req.deploymentId := rows[req.deploymentId].(outputUrl := url)];
      }
      ok := db.Fine?;
    }

    method MarkFinished(req: BuildRequest, url: string, db: Db) returns (ok: bool)
      modifies this
      ensures rows == PerformRows(old(rows), req, Effect.MarkFinished(url, db)) && ok == db.Fine?
      ensures rows.Keys == old(rows).Keys && forall x | x in rows && x != req.deploymentId :: rows[x] == old(rows)[x]
      ensures !db.Took() ==> rows == old(rows)
      ensures db.Took() && req.deploymentId in rows ==> rows[req.deploymentId].status.Success?
    {
      if db.Took() && req.deploymentId in rows {
        rows := rows[req.deploymentId := rows[req.deploymentId].(status := Success, outputUrl := url, reason := NoReason)];
      }
      ok := db.Fine?;
    }

    method ReadImageTag(req: BuildRequest, readable: bool) returns (tag: Option<string>)
      ensures tag.Some? <==> readable && req.deploymentId in rows
      ensures tag.Some? ==> tag.value == rows[req.deploymentId].imageTag
    {
      tag := if readable && req.deploymentId in rows then Some(rows[req.deploymentId].imageTag) else None;
    }
  }

  class Queue {
    var jobs: seq<Envelope>
    var dlq: seq<Envelope>
    var updates: seq<Update>

    constructor (jobs: seq<Envelope>)
      ensures this.jobs == jobs && dlq == [] && updates == []
    {
      this.jobs, dlq, updates := jobs, [], [];
    }

    method Deliver() returns (m: Envelope)
      requires jobs != []
      modifies this`jobs
      ensures m == old(jobs)[0] && jobs == old(jobs)[1..]
    {
      m, jobs := jobs[0], jobs[1..];
    }

    method PublishStatusUpdate(update: Update, p: Publish) returns (ok: bool)
      modifies this`updates
      ensures updates == old(updates) + (if p.Arrived() then [update] else []) && ok == p.Returned()
    {
      if p.Arrived() {
        updates := updates + [update];
      }
      ok := p.Returned();
    }

    /** A request that is not valid is refused here; outcome is what the publish came to. */
    method PublishBuildRequest(req: BuildRequest, p: Publish) returns (outcome: Publish)
      modifies this`jobs
      ensures outcome == if Valid(req) then p else Refused(false)
      ensures jobs == old(jobs) + (if outcome.Arrived() then [Publishing(req).value] else [])
    {
      PublishedIsReceived(req);
      hide Valid, Publishing, Receive;
      var publishing := Publishing(req);
      if publishing.Err? {
        return Refused(false);
      }
      if p.Arrived() {
        jobs := jobs + [publishing.value];
      }
      outcome := p;
    }

    method AckDelivery(m: Envelope, ok: bool)
      modifies this`jobs
      ensures jobs == if ok then old(jobs) else [m] + old(jobs)
    {
      if !ok {
        jobs := [m] + jobs;
      }
    }

    method NackDelivery(m: Envelope, requeue: bool, ok: bool)
      modifies this`jobs, this`dlq
      ensures if ok && !requeue then jobs == old(jobs) && dlq == old(dlq) + [m]
              else jobs == [m] + old(jobs) && dlq == old(dlq)
    {
      if ok && !requeue {
        dlq := dlq + [m];
      } else {
        jobs := [m] + jobs;
      }
    }
  }

  class WorkerUsecase {
    const repo: DeploymentRepository
    const queue: Queue
    ghost var done: seq<BuildRequest>

    constructor (repo: DeploymentRepository, queue: Queue)
      ensures this.repo == repo && this.queue == queue && done == []
    {
      this.repo, this.queue, done := repo, queue, [];
    }

    ghost function View(): Shop
      reads this`done, repo, queue
    {
      Shop(repo.rows, queue.jobs, queue.dlq, queue.updates, done)
    }

    method Publish(update: Update, p: Faults.Publish, ghost m: Envelope, ghost req: BuildRequest) returns (o: Outcome)
      modifies queue`updates
      ensures o == Call(Announce(update, p), p.Returned())
      ensures View() == PerformAll(old(View()), m, req, o.trace)
    {
      var ok := queue.PublishStatusUpdate(update, p);
      o := Call(Announce(update, p), ok);
      PerformedOne(old(View()), m, req, Announce(update, p));
    }

    /** prepareAndMarkBuilding */
    method PrepareAndMarkBuilding(req: BuildRequest, env: Env, ghost m: Envelope) returns (o: Outcome)
      modifies repo, queue`updates
      ensures o == Prepare(req, env) && View() == PerformAll(old(View()), m, req, o.trace)
      ensures o.ok && req.retryCount == 0 ==> req.deploymentId in repo.rows
      ensures old(repo.rows).Keys <= repo.rows.Keys
      ensures req.retryCount != 0 ==> repo.rows.Keys == old(repo.rows).Keys
    {
      hide PerformAll;
      ghost var start := View();
      o := Outcome([], true);
      NothingPerformed(start, m, req);
      if req.retryCount == 0 {
        var ok := repo.InsertJob(req, env.insert);
        PerformedOne(start, m, req, Insert(env.insert));
        o := Outcome([Insert(env.insert)], ok);
        if !ok { return; }
      }
      assert View() == PerformAll(start, m, req, o.trace);
      var ok := repo.MarkBuilding(req, env.building);
      Performed(start, m, req, o.trace, MarkBuilding(env.building));
      o := Outcome(o.trace + [MarkBuilding(env.building)], ok);
      if !ok { return; }
      ghost var mid := View();
      var announced := Publish(Update(req.deploymentId, Building, "", NoReason), env.announceBuilding, m, req);
      PerformedConcat(start, m, req, o.trace, announced.trace);
      o := o.Then(announced);
    }

    /** markFailed: recorded locally, never announced; a database error here is ignored. */
    method MarkAttemptFailed(req: BuildRequest, reason: Reason, env: Env, ghost m: Envelope) returns (o: Outcome)
      modifies repo
      ensures o == Fails(reason, env) && View() == PerformAll(old(View()), m, req, o.trace)
    {
      var _ := repo.MarkFailed(req, reason, env.failed);
      o := Outcome([MarkFailed(reason, env.failed)], false);
      PerformedOne(old(View()), m, req, MarkFailed(reason, env.failed));
    }

    /** The end of uploadAndFinalize and all of finalizeDynamicStub: the row first, then the update. */
    method MarkFinishedAndPublish(req: BuildRequest, url: string, env: Env, ghost m: Envelope) returns (o: Outcome)
      modifies repo, queue`updates
      ensures o == Finish(req, url, env) && View() == PerformAll(old(View()), m, req, o.trace)
    {
      hide PerformAll;
      ghost var start := View();
      var ok := repo.MarkFinished(req, url, env.finished);
      PerformedOne(start, m, req, MarkFinished(url, env.finished));
      o := Call(MarkFinished(url, env.finished), ok);
      if !ok { return; }
      var announced := Publish(Update(req.deploymentId, Success, url, NoReason), env.announceSuccess, m, req);
      PerformedConcat(start, m, req, o.trace, announced.trace);
      o := o.Then(announced);
    }

    method UploadAndFinalizeStatic(req: BuildRequest, env: Env, ghost m: Envelope) returns (o: Outcome)
      modifies repo, queue`updates
      ensures o == UploadAndFinalize(req, env) && View() == PerformAll(old(View()), m, req, o.trace)
    {
      hide PerformAll, Finish;
      ghost var start := View();
      if env.upload.None? {
        NothingPerformed(start, m, req);
        return Outcome([], false);
      }
      var ok := repo.UpdateOutputURL(req, env.upload.value, env.url);
      PerformedOne(start, m, req, SetOutputUrl(env.upload.value, env.url));
      o := Call(SetOutputUrl(env.upload.value, env.url), ok);
      if !ok { return; }
      var finished := MarkFinishedAndPublish(req, env.upload.value, env, m);
      PerformedConcat(start, m, req, o.trace, finished.trace);
      o := o.Then(finished);
    }

    /** From the checkout to the end. */
    method BuildAndFinalize(req: BuildRequest, env: Env, ghost m: Envelope) returns (o: Outcome)
      modifies repo, queue`updates
      ensures o == Build(req, env) && View() == PerformAll(old(View()), m, req, o.trace)
    {
      hide PerformAll, Finish, UploadAndFinalize, Fails;
      if !env.checkout {
        o := MarkAttemptFailed(req, CheckoutFailed, env, m);
        return;
      }
      if !env.appDir {
        o := MarkAttemptFailed(req, AppDirUnresolved, env, m);
        return;
      }
      if env.prepared.None? {
        o := MarkAttemptFailed(req, PrepareFailed, env, m);
        return;
      }
      var isStatic := env.prepared.value;
      if !env.image.Built? {
        if !env.image.Mismatch? {
          o := MarkAttemptFailed(req, BuildFailed, env, m);
          return;
        }
        if !env.fallback {
          o := MarkAttemptFailed(req, ServerSideRendering, env, m);
          return;
        }
        isStatic := false;
      }
      if isStatic {
        o := UploadAndFinalizeStatic(req, env, m);
      } else {
        o := MarkFinishedAndPublish(req, "", env, m);
      }
    }

    /** The calls are those of the specification, for what ReadImageTag can see. */
    method ProcessDeployment(req: BuildRequest, env: Env, ghost m: Envelope) returns (o: Outcome)
      requires env.granted
      modifies repo, queue`updates
      ensures o == Process(req, Seen(env, old(repo.rows), req)) && View() == PerformAll(old(View()), m, req, o.trace)
    {
      hide PerformAll, Prepare, Build, Fails, Inserted;
      ghost var start, seen := View(), Seen(env, repo.rows, req);
      o := PrepareAndMarkBuilding(req, env, m);
      SameButTag(req, env, seen);
      if !o.ok { return; }
      var tag := repo.ReadImageTag(req, env.tagRead);
      PreparedRow(req, env);
      Performed(start, m, req, o.trace, ReadTag(tag.Some?));
      o := o.Then(Call(ReadTag(tag.Some?), true));
      var rest;
      if tag.None? {
        rest := MarkAttemptFailed(req, TagUnreadable, env, m);
      } else {
        rest := BuildAndFinalize(req, env, m);
      }
      PerformedConcat(start, m, req, o.trace, rest.trace);
      o := o.Then(rest);
    }

    method Complete(req: BuildRequest, env: Env, m: Envelope)
      modifies this`done, queue`jobs
      ensures View() == PerformAll(old(View()), m, req, [Completed, Ack(env.settle)])
    {
      ghost var start := View();
      done := done + [JobOf(req)];
      queue.AckDelivery(m, env.settle);
      PerformedTwo(start, m, req, Completed, Ack(env.settle));
    }

    /** The worker's only place for a final word on a failed job. */
    method GiveUp(req: BuildRequest, env: Env, m: Envelope)
      modifies repo, queue
      ensures View() == PerformAll(old(View()), m, req,
                                   [GaveUp, MarkCanceled(env.canceled), AnnounceCanceled(req, env), Discard(env.settle)])
    {
      hide PerformAll, Inserted;
      ghost var start := View();
      var _ := repo.MarkCanceled(req, env.canceled);
      PerformedTwo(start, m, req, GaveUp, MarkCanceled(env.canceled));
      ghost var mid := View();
      var _ := Publish(Update(req.deploymentId, Canceled, "", RetriesExhausted), env.announceCanceled, m, req);
      PerformedOne(mid, m, req, AnnounceCanceled(req, env));
      queue.NackDelivery(m, false, env.settle);
      PerformedTwo(mid, m, req, AnnounceCanceled(req, env), Discard(env.settle));
      PerformedConcat(start, m, req, [GaveUp, MarkCanceled(env.canceled)], [AnnounceCanceled(req, env), Discard(env.settle)]);
      assert View() == PerformAll(start, m, req, [GaveUp, MarkCanceled(env.canceled)] + [AnnounceCanceled(req, env), Discard(env.settle)]);
      assert [GaveUp, MarkCanceled(env.canceled)] + [AnnounceCanceled(req, env), Discard(env.settle)] ==
             [GaveUp, MarkCanceled(env.canceled), AnnounceCanceled(req, env), Discard(env.settle)];
    }

    method RetryLater(req: BuildRequest, env: Env, m: Envelope)
      modifies queue
      ensures var p := RepublishOutcome(req, env);
              View() == PerformAll(old(View()), m, req,
                                   [Republish(Retry(req), p), if p.Returned() then Ack(env.settle) else Requeue(env.settle)])
    {
      hide PerformAll, PerformRows, Publishing, Valid, Retry, Receive;
      ghost var start := View();
      PublishedIsReceived(Retry(req));
      var p := queue.PublishBuildRequest(Retry(req), env.republish);
      if !p.Returned() {
        queue.NackDelivery(m, true, env.settle);
      } else {
        queue.AckDelivery(m, env.settle);
      }
      PerformedTwo(start, m, req, Republish(Retry(req), p), if p.Returned() then Ack(env.settle) else Requeue(env.settle));
    }

    /** One delivery from the queue to its settlement. */
    method HandleDelivery(limit: int64, env: Env)
      requires queue.jobs != []
      modifies this`done, repo, queue
      ensures View() == Turn(old(View()), limit as int, env)
    {
      hide PerformAll, Receive, Process, Retry, Seen, RepublishOutcome, Inserted, SetStatus;
      ghost var start := View();
      var m := queue.Deliver();
      ghost var popped := View();
      match Receive(m) {
        case Err(_) =>
          queue.NackDelivery(m, false, env.settle);
        case Ok(req) =>
          ghost var seen := Seen(env, start.rows, req);
          SeenChangesTag(env, start.rows, req);
          var o := Call(FetchCredential(env.granted), env.granted);
          PerformedOne(popped, m, req, FetchCredential(env.granted));
          if env.granted {
            var processed := ProcessDeployment(req, env, m);
            PerformedConcat(popped, m, req, o.trace, processed.trace);
            o := o.Then(processed);
          }
          assert o == Attempt(req, seen) && View() == PerformAll(popped, m, req, o.trace);
          PerformedConcat(popped, m, req, o.trace, Closing(req, limit as int, seen, o.ok));
          if o.ok {
            Complete(req, env, m);
          } else if Retry(req).retryCount >= limit {
            GiveUp(req, env, m);
          } else {
            RetryLater(req, env, m);
          }
      }
    }

    /**
     The message loop until its queue is empty. Faults end at some turn;
     from then on every turn spends one of the attempts that are left.
     */
    method StartWorker(maxRetries: int64, tape: Tape, ghost faults: nat) returns (turns: nat)
      requires forall i: nat | i >= faults :: JobRuns.Clean(tape(i))
      requires forall m | m in queue.jobs :: JobRuns.Retriable(m)
      modifies this`done, repo, queue
      ensures queue.jobs == [] && View() == Turns(old(View()), if maxRetries == 0 then 3 else maxRetries as int, tape, 0, turns)
      ensures faults == 0 ==> turns <= TotalAttempts(old(queue.jobs), EffectiveLimit(maxRetries))
      ensures faults == 0 ==> forall key :: JobRuns.Ledger(View(), key) == JobRuns.Ledger(old(View()), key)
    {
      hide Turn, JobRuns.Retriable, JobRuns.Clean, TotalAttempts, JobRuns.Ledger;
      var limit := EffectiveLimit(maxRetries);
      ghost var start := View();
      turns := 0;
      while queue.jobs != []
        invariant View() == Turns(start, limit as int, tape, 0, turns)
        invariant forall m | m in queue.jobs :: JobRuns.Retriable(m)
        invariant faults == 0 ==> turns + TotalAttempts(queue.jobs, limit) <= TotalAttempts(start.jobs, limit)
        decreases if turns < faults then faults - turns else 0, TotalAttempts(queue.jobs, limit)
      {
        ghost var before := View();
        TurnsStep(start, limit as int, tape, 0, turns);
        HandleDelivery(limit, tape(turns));
        JobRuns.TurnKeepsRetriable(before, limit as int, tape(turns));
        if turns >= faults {
          TurnSpendsAttempt(before, limit, tape(turns));
        }
        turns := turns + 1;
      }
      if faults == 0 {
        forall key ensures JobRuns.Ledger(View(), key) == JobRuns.Ledger(start, key) {
          JobRuns.RunConserves(start, limit as int, tape, 0, turns, key);
        }
      }
    }
  }

  // An unset limit reads as zero.
  function EffectiveLimit(maxRetries: int64): int64 { if maxRetries == 0 then 3 else maxRetries }

  // How often a message will still be delivered when nothing fails.
  function MessageAttempts(m: Envelope, limit: int64): nat {
    match Receive(m) case Ok(req) => JobRuns.AttemptsLeft(req, limit as int) case Err(_) => 1
  }

  function TotalAttempts(ms: seq<Envelope>, limit: int64): nat {
    if ms == [] then 0 else TotalAttempts(ms[..|ms| - 1], limit) + MessageAttempts(ms[|ms| - 1], limit)
  }

  lemma {:induction false} TotalAttemptsConcat(a: seq<Envelope>, b: seq<Envelope>, limit: int64)
    ensures TotalAttempts(a + b, limit) == TotalAttempts(a, limit) + TotalAttempts(b, limit)
  {
    hide MessageAttempts;
    if b == [] {
      assert a + b == a;
    } else {
      TotalAttemptsConcat(a, b[..|b| - 1], limit);
      assert (a + b)[..|a + b| - 1] == a + b[..|b| - 1];
    }
  }

  lemma TotalAttemptsOfOne(m: Envelope, limit: int64)
    ensures TotalAttempts([m], limit) == MessageAttempts(m, limit)
  {
    hide MessageAttempts;
    assert [m][..0] == [];
  }

  /** A turn without faults uses up at least one of the attempts the queue stands for. */
  lemma TurnSpendsAttempt(s: Shop, limit: int64, env: Env)
    requires s.jobs != [] && JobRuns.Clean(env) && JobRuns.Retriable(s.jobs[0])
    ensures TotalAttempts(Turn(s, limit as int, env).jobs, limit) < TotalAttempts(s.jobs, limit)
  {
    hide Receive, Publishing, Attempt, Valid, Seen, Delivery, Turn, TotalAttempts;
    var m, rest := s.jobs[0], s.jobs[1..];
    assert s.jobs == [m] + rest;
    TotalAttemptsConcat([m], rest, limit);
    TotalAttemptsOfOne(m, limit);
    if Receive(m).Err? {
      JobRuns.RejectedTurn(s, limit as int, env);
    } else {
      var req := Receive(m).value;
      JobRuns.SeenKeepsFaults(env, s.rows, req);
      TurnQueues(s, limit as int, env);
      ReceivedIsValid(m);
      RetryStaysPublishable(req);
      PublishedIsReceived(Retry(req));
      var next := Publishing(Retry(req)).value;
      TotalAttemptsConcat(rest, [next], limit);
      TotalAttemptsOfOne(next, limit);
    }
  }

  lemma SeenChangesTag(env: Env, rows: Rows, req: BuildRequest)
    ensures Seen(env, rows, req) == env.(tagRead := Seen(env, rows, req).tagRead)
    ensures RepublishOutcome(req, Seen(env, rows, req)) == RepublishOutcome(req, env)
  {}

  lemma SameButTag(req: BuildRequest, env: Env, seen: Env)
    requires seen == env.(tagRead := seen.tagRead)
    ensures Prepare(req, seen) == Prepare(req, env) && Build(req, seen) == Build(req, env)
    ensures forall reason :: Fails(reason, seen) == Fails(reason, env)
  {}

  lemma PreparedRow(req: BuildRequest, env: Env)
    ensures Prepare(req, env).ok && req.retryCount == 0 ==> env.insert.Took()
  {}

  lemma NothingPerformed(s: Shop, m: Envelope, req: BuildRequest)
    ensures PerformAll(s, m, req, []) == s
  {}

  lemma PerformedOne(s: Shop, m: Envelope, req: BuildRequest, e: Effect)
    ensures PerformAll(s, m, req, [e]) == Perform(s, m, req, e)
  {
    assert [e] == [] + [e];
    Performed(s, m, req, [], e);
  }
}
