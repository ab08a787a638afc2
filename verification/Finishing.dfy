/**
 Which deployments can still be built: what the pipeline has to have left of
 one, in whatever state a run has reached, for some continuation to complete it.
 */
module Finishing {
  import opened Wrappers
  import Contract
  import opened Faults
  import opened Status
  import Outbox
  import Dispatcher
  import Worker
  import Protocol
  import StatusConsumer
  import Credentials
  import JobRuns
  import Completion
  import opened Pipeline
  import opened PipelineSafety
  import opened Frames
  import opened NoLoss
  import opened LostRetry
  import opened Guarantees
  import opened Stranded

  // ---------- The calls of a delivery ----------

  // Where a delivery reads the tag: after the credential, the insert of a first attempt, the mark and the update.
  function TagAt(req: Contract.BuildRequest): nat { if req.retryCount == 0 then 4 else 3 }

  // Calls that are neither the credential, the insert nor the read.
  predicate Plain(trace: seq<Worker.Effect>) {
    forall i | 0 <= i < |trace| :: !trace[i].FetchCredential? && !trace[i].Insert? && !trace[i].ReadTag?
  }

  predicate HasShape(trace: seq<Worker.Effect>, req: Contract.BuildRequest, env: Worker.Env) {
    && (forall i | 0 <= i < |trace| :: trace[i].FetchCredential? ==> i == 0 && trace[i].granted == env.granted)
    && (forall i | 0 <= i < |trace| :: trace[i].Insert? ==> i == 1 && trace[i].db == env.insert && env.granted && req.retryCount == 0)
    && (forall i | 0 <= i < |trace| :: trace[i].ReadTag? ==> i == TagAt(req) && trace[i].found == env.tagRead)
  }

  // What a successful attempt has done on its way.
  predicate WentWell(trace: seq<Worker.Effect>, req: Contract.BuildRequest) {
    && |trace| > TagAt(req) && trace[TagAt(req)] == Worker.ReadTag(true)
    && (req.retryCount == 0 ==> trace[1] == Worker.Insert(Fine))
  }

  lemma BuildIsPlain(req: Contract.BuildRequest, env: Worker.Env)
    ensures Plain(Worker.Build(req, env).trace)
  {}

  lemma AttemptShape(req: Contract.BuildRequest, env: Worker.Env)
    ensures var a := Worker.Attempt(req, env);
            && a.trace != [] && a.trace[0] == Worker.FetchCredential(env.granted)
            && HasShape(a.trace, req, env) && (a.ok ==> env.granted && env.tagRead && WentWell(a.trace, req))
  {
    BuildIsPlain(req, env);
    hide Worker.Build;
  }

  lemma ClosingIsPlain(req: Contract.BuildRequest, limit: int, env: Worker.Env, ok: bool)
    ensures var closing := Worker.Closing(req, limit, env, ok);
            && Plain(closing)
            && (forall i | 0 <= i < |closing| :: (closing[i].Completed? ==> ok && i == 0) && (closing[i].Republish? ==> !ok))
            && (ok ==> closing != [] && closing[0].Completed?)
  {
    hide Worker.LimitReached, Contract.Retry, Worker.RepublishOutcome;
  }

  /** Completed occurs exactly in the deliveries whose attempt succeeds, right behind it. */
  lemma DeliveryShape(req: Contract.BuildRequest, limit: int, env: Worker.Env)
    ensures var calls, n := Worker.Delivery(req, limit, env), |Worker.Attempt(req, env).trace|;
            && calls != [] && calls[0] == Worker.FetchCredential(env.granted) && HasShape(calls, req, env)
            && (Worker.Completed in calls ==> env.granted && env.tagRead && WentWell(calls, req) && TagAt(req) < n < |calls| && calls[n].Completed?)
            && (forall i | 0 <= i < |calls| :: calls[i].Completed? ==> i == n)
            && (forall i | 0 <= i < |calls| :: calls[i].Republish? ==> Worker.Completed !in calls)
  {
    AttemptShape(req, env);
    Worker.AttemptIsQuiet(req, env);
    ClosingIsPlain(req, limit, env, Worker.Attempt(req, env).ok);
    hide Worker.Attempt, Worker.Closing;
  }

  lemma SmoothCompletes(req: Contract.BuildRequest, limit: int)
    ensures Worker.Completed in Worker.Delivery(req, limit, JobRuns.SMOOTH)
  {
    assert Worker.Attempt(req, JobRuns.SMOOTH).ok;
    SuccessCompletes(req, limit, JobRuns.SMOOTH);
    hide Worker.Attempt, Worker.Delivery;
  }

  // ---------- What is left of a deployment ----------

  /** Some job of the deployment has been completed. */
  ghost predicate Finished(w: World, id: string) { exists job | job in w.history.done :: job.deploymentId == id }

  ghost predicate CanFinish(w: World, id: string) { exists actions :: Finished(Run(w, actions), id) }

  /** The server would grant a credential. */
  predicate Open(w: World, id: string) { Credentials.Available(w.server, id) }

  predicate NoRead(made: seq<Worker.Effect>) { forall i | 0 <= i < |made| :: !made[i].ReadTag? }

  predicate NoInsert(made: seq<Worker.Effect>) { forall i | 0 <= i < |made| :: !made[i].Insert? }

  /** With some answers to the calls still to make, the attempt succeeds. */
  ghost predicate MaySucceed(req: Contract.BuildRequest, limit: int, made: seq<Worker.Effect>) {
    exists env :: Worker.Completed in Ahead(req, limit, made, env)
  }

  /** What the attempt will ask for: the credential first, and a row when it reads the tag. */
  predicate Supplied(w: World, req: Contract.BuildRequest, made: seq<Worker.Effect>) {
    && (made == [] ==> Open(w, req.deploymentId))
    && (NoRead(made) ==> req.deploymentId in w.rows || (req.retryCount == 0 && NoInsert(made)))
  }

  /** A worker is in an attempt that can still succeed. */
  ghost predicate CanSucceed(w: World, p: Proc, id: string) {
    && p.Working? && p.request.deploymentId == id && MaySucceed(p.request, w.limit, p.made) && Supplied(w, p.request, p.made)
  }

  // With some answers the worker still queues a retry.
  ghost predicate MayRetry(req: Contract.BuildRequest, limit: int, made: seq<Worker.Effect>) {
    exists env, publish: Publish :: publish.Arrived() && Worker.Republish(Contract.Retry(req), publish) in Ahead(req, limit, made, env)
  }

  predicate AttemptLeft(rows: Outbox.Table, id: nat) {
    id in rows && !rows[id].state.Sent? && !rows[id].state.DeadLetter? && rows[id].attempts < Outbox.MAX_ATTEMPTS
  }

  predicate Unpublished(p: Proc, id: nat) { p.Dispatching? && p.event.id == id && p.published.None? }

  /** The outbox still grants the event an attempt, or a dispatcher has it and has not published it yet. */
  ghost predicate CanBePublished(w: World, id: nat) {
    || AttemptLeft(w.outbox, id)
    || (exists e | e in w.held :: e.id == id)
    || exists pid | pid in w.procs :: Unpublished(w.procs[pid], id)
  }

  predicate Carries(p: Proc, req: Contract.BuildRequest) { p.Working? && p.own && p.request == req }

  // The worker may yet queue this request as a retry.
  ghost predicate MayQueue(p: Proc, limit: int, req: Contract.BuildRequest) {
    p.Working? && Contract.Retry(p.request) == req && MayRetry(p.request, limit, p.made)
  }

  /** A message with this request is queued, in a worker's hands, about to be retried, or still to be published. */
  ghost predicate Obtainable(w: World, req: Contract.BuildRequest) {
    || (exists m | m in w.jobs :: Contract.Receive(m) == Ok(req))
    || (exists pid | pid in w.procs :: Carries(w.procs[pid], req))
    || (exists pid | pid in w.procs :: MayQueue(w.procs[pid], w.limit, req))
    || (exists id | id in w.history.recorded :: Source(w.history.recorded[id]) == Some(req) && CanBePublished(w, id))
  }

  /** Its delivery would find the worker's row, or insert it. */
  ghost predicate Promising(w: World, id: string, req: Contract.BuildRequest) {
    req.deploymentId == id && (id in w.rows || req.retryCount == 0) && Obtainable(w, req)
  }

  ghost predicate SomeoneSucceeds(w: World, id: string) { exists pid | pid in w.procs :: CanSucceed(w, w.procs[pid], id) }

  ghost predicate Hope(w: World, id: string) {
    || Finished(w, id)
    || SomeoneSucceeds(w, id)
    || (Open(w, id) && exists req :: Promising(w, id, req))
  }

  // ---------- Completing what can be completed ----------

  lemma FinishLater(w: World, a: Action, id: string)
    requires CanFinish(After(w, a), id)
    ensures CanFinish(w, id)
  {
    hide After, Run, Finished;
    var more :| Finished(Run(After(w, a), more), id);
    RunCons(w, a, more);
  }

  lemma FinishNow(w: World, id: string)
    requires Finished(w, id)
    ensures CanFinish(w, id)
  {
    assert Run(w, []) == w;
  }

  // The first of the calls ahead, and where it leaves the worker.
  lemma AheadStep(req: Contract.BuildRequest, limit: int, made: seq<Worker.Effect>, env: Worker.Env)
    requires Ahead(req, limit, made, env) != []
    ensures var calls, ahead := Worker.Delivery(req, limit, env), Ahead(req, limit, made, env);
            && made <= calls && |made| < |calls| && ahead[0] == calls[|made|] && ahead == calls[|made|..]
            && Ahead(req, limit, made + [ahead[0]], env) == ahead[1..]
  {
    hide Worker.Delivery;
  }

  // A call that a successful attempt makes next.
  predicate Succeeding(req: Contract.BuildRequest, made: seq<Worker.Effect>, e: Worker.Effect) {
    && (e.FetchCredential? ==> made == []) && !e.Republish?
    && (e.ReadTag? ==> NoRead(made) && e.found && (req.retryCount == 0 ==> !NoInsert(made)))
    && (e.Insert? ==> e.db.Fine? && req.retryCount == 0 && NoInsert(made))
    && (e.Completed? ==> made != [] && !NoRead(made))
    && (made == [] ==> e == Worker.FetchCredential(true))
  }

  lemma CallOfSuccess(req: Contract.BuildRequest, calls: seq<Worker.Effect>, n: nat, made: seq<Worker.Effect>, env: Worker.Env)
    requires HasShape(calls, req, env) && WentWell(calls, req) && env.granted && env.tagRead && TagAt(req) < n
    requires calls[0] == Worker.FetchCredential(true) && made <= calls && |made| < |calls|
    requires forall i | 0 <= i < |calls| :: (calls[i].Completed? ==> i == n) && !calls[i].Republish?
    ensures Succeeding(req, made, calls[|made|])
  {
    var e := calls[|made|];
    if e.ReadTag? && req.retryCount == 0 {
      assert made[1] == calls[1];
    } else if e.Completed? {
      assert made[TagAt(req)] == calls[TagAt(req)];
    }
  }

  // The next call of a successful attempt.
  lemma SuccessCall(req: Contract.BuildRequest, limit: int, made: seq<Worker.Effect>, env: Worker.Env)
    requires Worker.Completed in Ahead(req, limit, made, env)
    ensures Succeeding(req, made, Ahead(req, limit, made, env)[0])
  {
    hide Worker.Delivery, Worker.Attempt, Ahead, HasShape, WentWell, Succeeding;
    AheadStep(req, limit, made, env);
    DeliveryShape(req, limit, env);
    var calls := Worker.Delivery(req, limit, env);
    assert Worker.Completed in calls;
    CallOfSuccess(req, calls, |Worker.Attempt(req, env).trace|, made, env);
  }

  // What it needs is there, and so is what the calls after it need.
  lemma SuccessStep(w: World, req: Contract.BuildRequest, made: seq<Worker.Effect>, e: Worker.Effect)
    requires Succeeding(req, made, e) && Supplied(w, req, made)
    ensures CanCall(w, req, e)
    ensures NoRead(made + [e]) ==> req.deploymentId in Worker.PerformRows(w.rows, req, e) || (req.retryCount == 0 && NoInsert(made + [e]))
  {
    hide Credentials.Available, NoRead, NoInsert;
    NoneBefore(made, e);
  }

  lemma NoneBefore(made: seq<Worker.Effect>, e: Worker.Effect)
    ensures NoRead(made + [e]) <==> NoRead(made) && !e.ReadTag?
    ensures NoInsert(made + [e]) <==> NoInsert(made) && !e.Insert?
  {
    assert (made + [e])[|made|] == e;
    assert forall i | 0 <= i < |made| :: (made + [e])[i] == made[i];
  }

  /** An attempt that can still succeed does so when its calls work. */
  lemma {:induction false} SuccessFinishes(w: World, pid: nat, env: Worker.Env)
    requires pid in w.procs && w.procs[pid].Working? && Supplied(w, w.procs[pid].request, w.procs[pid].made)
    requires Worker.Completed in Ahead(w.procs[pid].request, w.limit, w.procs[pid].made, env)
    ensures CanFinish(w, w.procs[pid].request.deploymentId)
    decreases |Ahead(w.procs[pid].request, w.limit, w.procs[pid].made, env)|
  {
    hide After, Enabled, AfterWork, Ahead, CanCall, CanFinish, Worker.PerformRows, Moved, Worker.Delivery, Contract.Publishing, Open, NoRead, NoInsert;
    var p, a := w.procs[pid], Work(pid, env);
    var ahead := Ahead(p.request, w.limit, p.made, env);
    SuccessCall(p.request, w.limit, p.made, env);
    SuccessStep(w, p.request, p.made, ahead[0]);
    AheadStep(p.request, w.limit, p.made, env);
    WorkEnabled(w, pid, env);
    CallParts(w, a);
    WorkParts(w, pid, p, ahead);
    HistoryAfterCall(w.history, w.rows, p.request, ahead[0]);
    if ahead[0].Completed? {
      assert Contract.JobOf(p.request) in After(w, a).history.done;
      FinishNow(After(w, a), p.request.deploymentId);
    } else {
      assert Worker.Completed in ahead[1..];
      SuccessFinishes(After(w, a), pid, env);
    }
    FinishLater(w, a, p.request.deploymentId);
  }

  lemma WorkEnabled(w: World, pid: nat, env: Worker.Env)
    requires pid in w.procs && w.procs[pid].Working?
    requires var ahead := Ahead(w.procs[pid].request, w.limit, w.procs[pid].made, env);
             ahead != [] && CanCall(w, w.procs[pid].request, ahead[0])
    ensures Enabled(w, Work(pid, env))
  {
    hide Ahead, CanCall;
  }

  // The message's delivery would find or insert the row.
  predicate Welcome(w: World, id: string, req: Contract.BuildRequest) {
    Open(w, id) && req.deploymentId == id && (id in w.rows || req.retryCount == 0)
  }

  /** A queued message is delivered, and its attempt succeeds. */
  lemma FromQueue(w: World, m: Contract.Envelope, id: string, req: Contract.BuildRequest)
    requires m in w.jobs && Contract.Receive(m) == Ok(req) && Welcome(w, id, req)
    ensures CanFinish(w, id)
  {
    hide After, Enabled, CanFinish, Contract.Receive, Open, Worker.Delivery;
    var a, w1 := Deliver(m, true), After(w, Deliver(m, true));
    DeliverAction(w, m, req);
    SmoothCompletes(req, w.limit);
    assert Open(w1, id) by { SameServer(w, w1, id); }
    var calls := Worker.Delivery(req, w.limit, JobRuns.SMOOTH);
    assert calls[0..] == calls;
    SuccessFinishes(w1, w.next, JobRuns.SMOOTH);
    FinishLater(w, a, id);
  }

  lemma SameServer(w: World, w': World, id: string)
    requires w'.server == w.server
    ensures Open(w', id) <==> Open(w, id)
  {}

  /** A delivery in a worker's hands comes back when the worker crashes. */
  lemma FromHands(w: World, pid: nat, id: string, req: Contract.BuildRequest)
    requires Sound(w) && pid in w.procs && Carries(w.procs[pid], req) && Welcome(w, id, req)
    ensures CanFinish(w, id)
  {
    hide Sound, After, CanFinish, Open, Contract.Receive, Genuine, Achieved, Protocol.Walk;
    ProcFound(w, pid);
    var p, w1 := w.procs[pid], After(w, Crash(pid));
    StopIs(w, Crash(pid));
    RedeliveredParts(Stop(w, pid), p);
    SameServer(w, w1, id);
    FromQueue(w1, p.job, id, req);
    FinishLater(w, Crash(pid), id);
  }

  // An answer that the world has to allow leaves the attempt a chance.
  lemma AskingMaySucceed(req: Contract.BuildRequest, limit: int, made: seq<Worker.Effect>, env: Worker.Env)
    requires var ahead := Ahead(req, limit, made, env);
             ahead != [] && (ahead[0] == Worker.FetchCredential(true) || ahead[0] == Worker.ReadTag(true))
    ensures MaySucceed(req, limit, made)
  {
    hide Worker.Delivery, Ahead;
    AheadStep(req, limit, made, env);
    DeliveryShape(req, limit, env);
    if Ahead(req, limit, made, env)[0].FetchCredential? {
      SmoothCompletes(req, limit);
      assert Ahead(req, limit, [], JobRuns.SMOOTH) == Worker.Delivery(req, limit, JobRuns.SMOOTH) by { NothingMade(req, limit, JobRuns.SMOOTH); }
      assert made == [];
    } else {
      ReadingMaySucceed(req, limit, env, made);
    }
  }

  lemma NothingMade(req: Contract.BuildRequest, limit: int, env: Worker.Env)
    ensures Ahead(req, limit, [], env) == Worker.Delivery(req, limit, env)
  {
    hide Worker.Delivery;
  }

  // The same surroundings until the tag is read, and good ones afterwards.
  function BrightFuture(env: Worker.Env): Worker.Env {
    env.(checkout := true, appDir := true, prepared := Some(false), image := Worker.Built, finished := Fine, announceSuccess := Queued)
  }

  lemma ReadingMaySucceed(req: Contract.BuildRequest, limit: int, env: Worker.Env, made: seq<Worker.Effect>)
    requires var calls := Worker.Delivery(req, limit, env); made <= calls && |made| < |calls| && calls[|made|] == Worker.ReadTag(true)
    ensures MaySucceed(req, limit, made)
  {
    hide Worker.Delivery, Worker.Attempt, BrightFuture;
    var better := BrightFuture(env);
    var calls, n := Worker.Delivery(req, limit, better), |Worker.Attempt(req, better).trace|;
    assert |made| == TagAt(req) by { DeliveryShape(req, limit, env); }
    SameUntilTag(req, limit, env);
    SuccessCompletes(req, limit, better);
    assert made == Worker.Delivery(req, limit, env)[..TagAt(req)] == calls[..TagAt(req)];
    assert calls[|made|..][n - |made|] == Worker.Completed;
    assert Ahead(req, limit, made, better) == calls[|made|..];
  }

  lemma SuccessCompletes(req: Contract.BuildRequest, limit: int, env: Worker.Env)
    requires Worker.Attempt(req, env).ok
    ensures var calls, n := Worker.Delivery(req, limit, env), |Worker.Attempt(req, env).trace|; n < |calls| && calls[n] == Worker.Completed
  {
    ClosingIsPlain(req, limit, env, true);
    hide Worker.Attempt, Worker.Closing;
  }

  lemma PrepareShape(req: Contract.BuildRequest, env: Worker.Env)
    ensures var a := Worker.Prepare(req, env);
            (forall i | 0 <= i < |a.trace| :: !a.trace[i].ReadTag?) && (a.ok ==> |a.trace| == TagAt(req) - 1)
  {}

  // A tag that was found has only the calls before it behind it.
  lemma FoundTag(req: Contract.BuildRequest, env: Worker.Env)
    ensures var a, prepared := Worker.Attempt(req, env), Worker.Prepare(req, env);
            if env.granted && prepared.ok && env.tagRead
            then a.trace == [Worker.FetchCredential(true)] + prepared.trace + [Worker.ReadTag(true)] + Worker.Build(req, env).trace
                 && a.ok == Worker.Build(req, env).ok
            else forall i | 0 <= i < |a.trace| :: a.trace[i] != Worker.ReadTag(true)
  {
    PrepareShape(req, env);
    BuildIsPlain(req, env);
    hide Worker.Prepare, Worker.Build;
  }

  lemma SameUntilTag(req: Contract.BuildRequest, limit: int, env: Worker.Env)
    requires var calls := Worker.Delivery(req, limit, env); |calls| > TagAt(req) && calls[TagAt(req)] == Worker.ReadTag(true)
    ensures var calls, better := Worker.Delivery(req, limit, env), Worker.Delivery(req, limit, BrightFuture(env));
            && |better| > TagAt(req) && calls[..TagAt(req)] == better[..TagAt(req)]
            && Worker.Attempt(req, BrightFuture(env)).ok && |Worker.Attempt(req, BrightFuture(env)).trace| > TagAt(req)
  {
    var better, a := BrightFuture(env), Worker.Attempt(req, env);
    assert Worker.Prepare(req, better) == Worker.Prepare(req, env) && Worker.Build(req, better).ok;
    PrepareShape(req, env);
    FoundTag(req, env);
    FoundTag(req, better);
    ClosingIsPlain(req, limit, env, a.ok);
    assert better.granted == env.granted && better.tagRead == env.tagRead;
    hide Worker.Closing, Worker.Attempt, Worker.Prepare, Worker.Build, BrightFuture;
  }

  /** A worker whose attempt has failed queues the retry. */
  lemma {:induction false} FromRetry(w: World, pid: nat, env: Worker.Env, publish: Publish, id: string)
    requires Sound(w) && pid in w.procs && w.procs[pid].Working? && publish.Arrived()
    requires Worker.Republish(Contract.Retry(w.procs[pid].request), publish) in Ahead(w.procs[pid].request, w.limit, w.procs[pid].made, env)
    requires !MaySucceed(w.procs[pid].request, w.limit, w.procs[pid].made)
    requires id in w.rows && Welcome(w, id, Contract.Retry(w.procs[pid].request))
    ensures CanFinish(w, id)
    decreases |Ahead(w.procs[pid].request, w.limit, w.procs[pid].made, env)|
  {
    hide Sound, After, Enabled, AfterWork, Ahead, CanCall, CanFinish, Worker.PerformRows, Moved, Worker.Delivery, Contract.Publishing,
      Contract.Retry, Open, WorkHistory, CallInOrder, Achieved, MaySucceed;
    var p, a := w.procs[pid], Work(pid, env);
    var ahead, w1 := Ahead(p.request, w.limit, p.made, env), After(w, a);
    var e := ahead[0];
    AheadStep(p.request, w.limit, p.made, env);
    if e == Worker.FetchCredential(true) || e == Worker.ReadTag(true) {
      AskingMaySucceed(p.request, w.limit, p.made, env);
    }
    ProcFound(w, pid);
    ProcInOrder(w.limit, w.history, w.rows.Keys, p, env);
    if e != Worker.Republish(Contract.Retry(p.request), publish) {
      RetryIsLast(p.request, w.limit, env, publish, |p.made|);
    }
    UngatedCall(w, p.request, e, publish);
    WorkEnabled(w, pid, env);
    CallParts(w, a);
    WorkParts(w, pid, p, ahead);
    RowsStay(w.rows, p.request, e);
    SameServer(w, w1, id);
    if e == Worker.Republish(Contract.Retry(p.request), publish) {
      RepublishedArrives(w, p, ahead);
      FromQueue(w1, Contract.Publishing(Contract.Retry(p.request)).value, id, Contract.Retry(p.request));
    } else {
      LessMaySucceed(p.request, w.limit, p.made, e);
      ActionKeepsSound(w, a);
      FromRetry(w1, pid, env, publish, id);
    }
    FinishLater(w, a, id);
  }

  // A delivery publishes at most one retry.
  lemma RetryIsLast(req: Contract.BuildRequest, limit: int, env: Worker.Env, publish: Publish, at: nat)
    requires var calls := Worker.Delivery(req, limit, env);
             at < |calls| && Worker.Republish(Contract.Retry(req), publish) in calls && calls[at] != Worker.Republish(Contract.Retry(req), publish)
    ensures !Worker.Delivery(req, limit, env)[at].Republish?
  {
    Worker.AttemptIsQuiet(req, env);
    hide Worker.Attempt, Worker.RepublishOutcome, Worker.LimitReached, Contract.Retry;
  }

  // Every other call can be made whatever the world is like.
  lemma UngatedCall(w: World, req: Contract.BuildRequest, e: Worker.Effect, publish: Publish)
    requires e != Worker.FetchCredential(true) && e != Worker.ReadTag(true)
    requires e.Republish? ==> e.publish == publish && publish.Arrived()
    ensures CanCall(w, req, e)
  {}

  lemma RowsStay(rows: Worker.Rows, req: Contract.BuildRequest, e: Worker.Effect)
    ensures rows.Keys <= Worker.PerformRows(rows, req, e).Keys
  {}

  // What may succeed after a call might have succeeded before it.
  lemma LessMaySucceed(req: Contract.BuildRequest, limit: int, made: seq<Worker.Effect>, e: Worker.Effect)
    ensures MaySucceed(req, limit, made + [e]) ==> MaySucceed(req, limit, made)
  {
    hide Worker.Delivery, Ahead;
    if MaySucceed(req, limit, made + [e]) {
      var env :| Worker.Completed in Ahead(req, limit, made + [e], env);
      MoreAhead(req, limit, made, e, env);
    }
  }

  lemma MoreAhead(req: Contract.BuildRequest, limit: int, made: seq<Worker.Effect>, e: Worker.Effect, env: Worker.Env)
    requires Ahead(req, limit, made + [e], env) != []
    ensures Ahead(req, limit, made, env) == [e] + Ahead(req, limit, made + [e], env)
  {
    hide Worker.Delivery;
    var calls := Worker.Delivery(req, limit, env);
    assert made + [e] <= calls;
    assert (made + [e])[|made|] == calls[|made|] == e;
  }

  lemma RepublishedArrives(w: World, p: Proc, ahead: seq<Worker.Effect>)
    requires p.Working? && ahead != [] && CallInOrder(w.limit, p, ahead)
    requires ahead[0].Republish? && ahead[0].publish.Arrived() && ahead[0].request == Contract.Retry(p.request)
    ensures Contract.Publishing(Contract.Retry(p.request)).Ok?
            && Contract.Receive(Contract.Publishing(Contract.Retry(p.request)).value) == Ok(Contract.Retry(p.request))
  {
    hide Contract.Publishing, Contract.Receive, Contract.Valid, Contract.Retry, Protocol.Disciplined, Protocol.Advance, Moved, Worker.LimitReached;
    assert Contract.Valid(ahead[0].request);
    Contract.PublishedIsReceived(ahead[0].request);
  }

  /** A dispatcher with the event publishes it. */
  lemma FromPublisher(w: World, pid: nat, event: nat, id: string, req: Contract.BuildRequest)
    requires Sound(w) && pid in w.procs && Unpublished(w.procs[pid], event) && Welcome(w, id, req)
    requires event in w.history.recorded && Source(w.history.recorded[event]) == Some(req)
    ensures CanFinish(w, id)
  {
    hide Sound, After, AfterDispatch, EventAhead, CanFinish, Open, Dispatcher.Message, Dispatcher.Perform, Contract.Receive;
    var p, a := w.procs[pid], Dispatch(pid, ANSWERS, 0, 0);
    ProcFound(w, pid);
    SourceIsMessage(w.history.recorded[event]);
    SmoothAhead(p.event, p.published);
    CallParts(w, a);
    DispatchParts(w, pid, p.event, EventAhead(p.event, p.published, ANSWERS, 0, 0));
    SameServer(w, After(w, a), id);
    FromQueue(After(w, a), Dispatcher.Message(p.event.row).value, id, req);
    FinishLater(w, a, id);
  }

  lemma FromMemory(w: World, e: Dispatcher.Event, id: string, req: Contract.BuildRequest)
    requires Sound(w) && e in w.held && Welcome(w, id, req)
    requires e.id in w.history.recorded && Source(w.history.recorded[e.id]) == Some(req)
    ensures CanFinish(w, id)
  {
    hide Sound, After, CanFinish, Open, Source;
    var w1 := After(w, Begin(e));
    BeginOne(w, e);
    StartsParts(w, Begin(e));
    ActionKeepsSound(w, Begin(e));
    SameServer(w, w1, id);
    FromPublisher(w1, w.next, e.id, id, req);
    FinishLater(w, Begin(e), id);
  }

  /** A row with an attempt left is claimed, once it can be, and published. */
  lemma FromOutbox(w: World, event: nat, id: string, req: Contract.BuildRequest)
    requires Sound(w) && event in w.outbox && Welcome(w, id, req)
    requires !w.outbox[event].state.Sent? && !w.outbox[event].state.DeadLetter? && w.outbox[event].attempts < Outbox.MAX_ATTEMPTS
    requires event in w.history.recorded && Source(w.history.recorded[event]) == Some(req)
    ensures CanFinish(w, id)
  {
    hide Sound, After, CanFinish, Open, Source, Outbox.Claimable, Outbox.Claimed;
    var d := Patience(w.outbox[event], w.now);
    var w1 := After(w, Wait(d));
    var w2 := After(w1, Claim([event], true));
    WaitOne(w, d);
    ActionKeepsSound(w, Wait(d));
    ClaimOne(w1, event, true);
    ClaimKeepsServer(w1, event);
    ActionKeepsSound(w1, Claim([event], true));
    SameServer(w, w2, id);
    FromMemory(w2, Dispatcher.Event(event, Outbox.Claimed(w1.outbox[event], w1.now)), id, req);
    FinishLater(w1, Claim([event], true), id);
    FinishLater(w, Wait(d), id);
  }

  lemma ClaimKeepsServer(w: World, event: nat)
    ensures var w' := After(w, Claim([event], true)); w'.server == w.server && w'.rows == w.rows && w'.history == w.history
  {
    hide Outbox.CanClaim, Outbox.ClaimAll, EventsOf;
  }

  lemma PromisingFinishes(w: World, id: string, req: Contract.BuildRequest)
    requires Sound(w) && Open(w, id) && Promising(w, id, req)
    ensures CanFinish(w, id)
  {
    hide Sound, CanFinish, Open, Source, Contract.Receive, MayRetry, MaySucceed, Contract.Retry;
    if m :| m in w.jobs && Contract.Receive(m) == Ok(req) {
      FromQueue(w, m, id, req);
    } else if pid :| pid in w.procs && Carries(w.procs[pid], req) {
      FromHands(w, pid, id, req);
    } else if pid :| pid in w.procs && MayQueue(w.procs[pid], w.limit, req) {
      FromWorker(w, pid, id, req);
    } else {
      var event :| event in w.history.recorded && Source(w.history.recorded[event]) == Some(req) && CanBePublished(w, event);
      if e :| e in w.held && e.id == event {
        FromMemory(w, e, id, req);
      } else if pid :| pid in w.procs && Unpublished(w.procs[pid], event) {
        FromPublisher(w, pid, event, id, req);
      } else {
        FromOutbox(w, event, id, req);
      }
    }
  }

  lemma FromWorker(w: World, pid: nat, id: string, req: Contract.BuildRequest)
    requires Sound(w) && Welcome(w, id, req) && pid in w.procs && MayQueue(w.procs[pid], w.limit, req)
    ensures CanFinish(w, id)
  {
    hide Sound, CanFinish, Open, Ahead, Contract.Retry, Contract.Valid;
    var p := w.procs[pid];
    var env, publish: Publish :| publish.Arrived() && Worker.Republish(req, publish) in Ahead(p.request, w.limit, p.made, env);
    RetriesCount(w, pid, env, publish);
    if MaySucceed(p.request, w.limit, p.made) {
      var good :| Worker.Completed in Ahead(p.request, w.limit, p.made, good);
      SuccessFinishes(w, pid, good);
    } else {
      FromRetry(w, pid, env, publish, id);
    }
  }

  // A retry that is queued is not a first attempt.
  lemma RetriesCount(w: World, pid: nat, env: Worker.Env, publish: Publish)
    requires Sound(w) && pid in w.procs && w.procs[pid].Working? && publish.Arrived()
    requires Worker.Republish(Contract.Retry(w.procs[pid].request), publish) in Ahead(w.procs[pid].request, w.limit, w.procs[pid].made, env)
    ensures Contract.Retry(w.procs[pid].request).retryCount > 0
            && Contract.Retry(w.procs[pid].request).deploymentId == w.procs[pid].request.deploymentId
  {
    hide Sound, Contract.Valid, Contract.Receive, Genuine, Achieved, Protocol.Walk, Worker.Delivery;
    var p := w.procs[pid];
    ProcFound(w, pid);
    Contract.ReceivedIsValid(p.job);
    RetriesArePositive(p.request);
    QueuedIsValid(p.request, w.limit, env, publish);
  }

  lemma QueuedIsValid(req: Contract.BuildRequest, limit: int, env: Worker.Env, publish: Publish)
    requires Worker.Republish(Contract.Retry(req), publish) in Worker.Delivery(req, limit, env) && publish.Arrived()
    ensures Contract.Valid(Contract.Retry(req))
  {
    Worker.AttemptIsQuiet(req, env);
    hide Worker.Attempt, Worker.LimitReached, Contract.Retry, Contract.Valid;
  }

  lemma HopeFinishes(w: World, id: string)
    requires Sound(w) && Hope(w, id)
    ensures CanFinish(w, id)
  {
    hide Sound, CanFinish, Open, Finished, Promising, Ahead;
    if Finished(w, id) {
      FinishNow(w, id);
    } else if pid :| pid in w.procs && CanSucceed(w, w.procs[pid], id) {
      var p := w.procs[pid];
      var env :| Worker.Completed in Ahead(p.request, w.limit, p.made, env);
      SuccessFinishes(w, pid, env);
    } else {
      var req :| Promising(w, id, req);
      PromisingFinishes(w, id, req);
    }
  }

  // ---------- Where hope comes from ----------

  lemma AppliedStaysShut(server: StatusConsumer.Rows, u: Update, db: Db, id: string)
    requires Credentials.Available(StatusConsumer.Applied(server, ParamsOf(u), db), id)
    ensures Credentials.Available(server, id)
  {}

  /** A server that refuses a deployment a credential does so for ever. */
  lemma OpenWas(w: World, a: Action, id: string)
    requires id in w.server && Open(After(w, a), id)
    ensures Open(w, id)
  {
    hide After, Enabled, Open, StatusConsumer.Applied, StatusConsumer.Reported, ParamsOf;
    if !Enabled(w, a) {
      DisabledChangesNothing(w, a);
    } else if Passive(a) {
      PassiveKeepsServer(w, a, id);
      SameRowOpen(w, After(w, a), id);
    } else if a.ApplyUpdate? {
      StopIs(w, a);
      ApplyOpen(w, a.pid, w.procs[a.pid], a.db, id);
    } else if Stops(a) {
      StopsParts(w, a);
      SameServer(w, After(w, a), id);
    } else if Starts(a) {
      StartsParts(w, a);
      SameServer(w, After(w, a), id);
    } else {
      CallKeepsServer(w, a);
      SameServer(w, After(w, a), id);
    }
  }

  lemma SameRowOpen(w: World, w': World, id: string)
    requires id in w.server && id in w'.server && w.server[id] == w'.server[id]
    ensures Open(w', id) <==> Open(w, id)
  {}

  lemma ApplyOpen(w: World, pid: nat, c: Proc, db: Db, id: string)
    requires c.Consuming? && Open(AfterApply(w, pid, c, db), id)
    ensures Open(w, id)
  {
    AppliedStaysShut(w.server, c.update, db, id);
    hide StatusConsumer.Applied, StatusConsumer.Reported, ParamsOf, Credentials.Available;
  }

  // What only workers and the recording of builds change.
  lemma OthersKeep(w: World, a: Action)
    ensures After(w, a).limit == w.limit
    ensures !a.Work? ==> After(w, a).rows == w.rows && After(w, a).history.done == w.history.done
    ensures After(w, a).history.recorded == if a.Record? && Enabled(w, a) then w.history.recorded[a.id := a.row] else w.history.recorded
  {
    hide After, Enabled, AfterWork, AfterDispatch, Ahead, EventAhead, CanCall;
    if !Enabled(w, a) {
      DisabledChangesNothing(w, a);
    } else if Passive(a) {
      PassiveParts(w, a);
      PassiveRecords(w, a);
    } else if Stops(a) {
      StopsParts(w, a);
    } else if Starts(a) {
      StartsParts(w, a);
    } else {
      CallParts(w, a);
      var p := w.procs[a.pid];
      if a.Work? {
        WorkParts(w, a.pid, p, Ahead(p.request, w.limit, p.made, a.env));
        WorkKeepsOutbox(w, a.pid, p, Ahead(p.request, w.limit, p.made, a.env));
      } else {
        DispatchParts(w, a.pid, p.event, EventAhead(p.event, p.published, a.answers, a.at, a.delay));
      }
    }
  }

  lemma PassiveRecords(w: World, a: Action)
    requires Enabled(w, a) && Passive(a)
    ensures After(w, a).history.recorded == if a.Record? then w.history.recorded[a.id := a.row] else w.history.recorded
    ensures After(w, a).jobs == w.jobs
  {
    hide Outbox.CanClaim, EventsOf, Outbox.ClaimAll, Outbox.ResetAll, Outbox.DeleteExpired, Source;
  }

  // A worker that is about to insert the row may succeed.
  lemma InserterCanSucceed(w: World, pid: nat, env: Worker.Env)
    requires pid in w.procs && w.procs[pid].Working?
    requires var ahead := Ahead(w.procs[pid].request, w.limit, w.procs[pid].made, env); ahead != [] && ahead[0].Insert?
    ensures CanSucceed(w, w.procs[pid], w.procs[pid].request.deploymentId)
  {
    var req, made := w.procs[pid].request, w.procs[pid].made;
    AheadStep(req, w.limit, made, env);
    DeliveryShape(req, w.limit, env);
    SmoothCompletes(req, w.limit);
    DeliveryShape(req, w.limit, JobRuns.SMOOTH);
    hide Worker.Delivery, Ahead, Open;
    assert made == [Worker.FetchCredential(true)];
    OnceMadeAhead(req, w.limit, JobRuns.SMOOTH);
  }

  lemma OnceMadeAhead(req: Contract.BuildRequest, limit: int, env: Worker.Env)
    requires var calls := Worker.Delivery(req, limit, env);
             calls != [] && calls[0] == Worker.FetchCredential(true) && Worker.Completed in calls
    ensures Worker.Completed in Ahead(req, limit, [Worker.FetchCredential(true)], env)
  {
    hide Worker.Delivery;
    var calls := Worker.Delivery(req, limit, env);
    assert calls == [calls[0]] + calls[1..];
  }

  /** A row comes into being only by a worker that could succeed. */
  lemma RowWas(w: World, a: Action, id: string)
    requires id in After(w, a).rows
    ensures id in w.rows || SomeoneSucceeds(w, id)
  {
    hide After, Enabled, AfterWork, Ahead, CanCall, CanSucceed, Worker.PerformRows;
    OthersKeep(w, a);
    if !Enabled(w, a) {
      DisabledChangesNothing(w, a);
    } else if a.Work? {
      CallParts(w, a);
      var p := w.procs[a.pid];
      var ahead := Ahead(p.request, w.limit, p.made, a.env);
      WorkParts(w, a.pid, p, ahead);
      RowInserted(w, a, p, ahead, id);
    }
  }

  lemma RowInserted(w: World, a: Action, p: Proc, ahead: seq<Worker.Effect>, id: string)
    requires a.Work? && a.pid in w.procs && w.procs[a.pid] == p && p.Working?
    requires ahead == Ahead(p.request, w.limit, p.made, a.env) && ahead != []
    requires id in Worker.PerformRows(w.rows, p.request, ahead[0])
    ensures id in w.rows || CanSucceed(w, p, id)
  {
    hide Ahead, CanSucceed, Worker.PerformRows;
    Completion.RowsGrow(w.rows, p.request, ahead[0]);
    if id !in w.rows {
      InserterCanSucceed(w, a.pid, a.env);
    }
  }

  // A delivery after one more call.
  ghost predicate Stepped(w: World, a: Action, pid: nat, p': Proc) {
    && a.Work? && a.pid == pid && pid in w.procs && w.procs[pid].Working? && Enabled(w, a)
    && Ahead(w.procs[pid].request, w.limit, w.procs[pid].made, a.env) != []
    && p' == Continued(w.procs[pid], w.limit, Ahead(w.procs[pid].request, w.limit, w.procs[pid].made, a.env)[0])
  }

  /** Where a delivery in hand was before. */
  lemma DeliveryWas(w: World, a: Action, pid: nat)
    requires pid in After(w, a).procs && After(w, a).procs[pid].Working?
    ensures var p' := After(w, a).procs[pid];
            (pid in w.procs && Persists(w.procs[pid], p')) || Fresh(w, a, p') || Stepped(w, a, pid, p')
  {
    hide After, AfterWork, AfterDispatch, Ahead, EventAhead, CanCall, Continued, Contract.Receive;
    if !Enabled(w, a) {
      DisabledChangesNothing(w, a);
    } else if Passive(a) {
      PassiveParts(w, a);
    } else if Stops(a) {
      StopsParts(w, a);
    } else if Starts(a) {
      StartsParts(w, a);
    } else {
      CallParts(w, a);
      var p := w.procs[a.pid];
      if a.Work? {
        WorkParts(w, a.pid, p, Ahead(p.request, w.limit, p.made, a.env));
      } else {
        DispatchParts(w, a.pid, p.event, EventAhead(p.event, p.published, a.answers, a.at, a.delay));
      }
    }
  }

  /** Whatever has been completed could be. */
  lemma FinishedWas(w: World, a: Action, id: string)
    requires Finished(After(w, a), id)
    ensures Finished(w, id) || SomeoneSucceeds(w, id)
  {
    hide After, Enabled, AfterWork, Ahead, CanCall, CanSucceed, WorkHistory;
    OthersKeep(w, a);
    if !Enabled(w, a) {
      DisabledChangesNothing(w, a);
    } else if a.Work? {
      CallParts(w, a);
      var p := w.procs[a.pid];
      var ahead := Ahead(p.request, w.limit, p.made, a.env);
      WorkParts(w, a.pid, p, ahead);
      DoneByCompleted(w, p.request, ahead[0]);
      if ahead[0].Completed? && p.request.deploymentId == id {
        FinisherCanSucceed(w, a.pid, a.env);
      }
    }
  }

  lemma DoneByCompleted(w: World, req: Contract.BuildRequest, e: Worker.Effect)
    ensures WorkHistory(w.history, w.rows, req, e).done == w.history.done + if e.Completed? then {Contract.JobOf(req)} else {}
    ensures Contract.JobOf(req).deploymentId == req.deploymentId
  {}

  lemma FinisherCanSucceed(w: World, pid: nat, env: Worker.Env)
    requires pid in w.procs && w.procs[pid].Working?
    requires var ahead := Ahead(w.procs[pid].request, w.limit, w.procs[pid].made, env); ahead != [] && ahead[0].Completed?
    ensures CanSucceed(w, w.procs[pid], w.procs[pid].request.deploymentId)
  {
    hide Ahead, Open;
    SuccessCall(w.procs[pid].request, w.limit, w.procs[pid].made, env);
  }

  // A delivery that goes on, and a row that is not new.
  lemma PersistentSuccess(w: World, w': World, pid: nat, p': Proc, id: string)
    requires pid in w.procs && Persists(w.procs[pid], p') && CanSucceed(w', p', id)
    requires w'.limit == w.limit && (id in w'.rows ==> id in w.rows) && (p'.made == [] ==> Open(w, id))
    ensures SomeoneSucceeds(w, id)
  {
    hide MaySucceed, Open, NoRead, NoInsert;
    assert CanSucceed(w, w.procs[pid], id);
  }

  // A delivery that has just begun.
  lemma FreshSuccess(w: World, a: Action, w': World, p': Proc, id: string)
    requires Fresh(w, a, p') && CanSucceed(w', p', id)
    requires w'.limit == w.limit && (id in w'.rows ==> id in w.rows) && Open(w, id)
    ensures exists req :: Promising(w, id, req)
  {
    hide MaySucceed, Open, Contract.Receive;
    assert NoRead(p'.made);
    QueuedIsObtainable(w, a.job, p'.request);
    assert Promising(w, id, p'.request);
  }

  /** A worker that can succeed after an action could before, or its message gave hope. */
  lemma SuccessWas(w: World, a: Action, pid: nat, id: string)
    requires Sound(w) && id in w.server && pid in After(w, a).procs && CanSucceed(After(w, a), After(w, a).procs[pid], id)
    ensures Hope(w, id)
  {
    hide Sound, After, Finished, Open, CanSucceed, MaySucceed, Promising, Persists, Contract.Receive, Continued;
    var w', p' := After(w, a), After(w, a).procs[pid];
    OthersKeep(w, a);
    IsDelivery(w', p', id);
    DeliveryWas(w, a, pid);
    if p'.made == [] {
      OpenWas(w, a, id);
    }
    if id in w'.rows && id !in w.rows {
      RowWas(w, a, id);
    } else if pid in w.procs && Persists(w.procs[pid], p') {
      PersistentSuccess(w, w', pid, p', id);
    } else if Fresh(w, a, p') {
      FreshSuccess(w, a, w', p', id);
    } else {
      SteppedCouldSucceed(w, a, pid, id);
    }
  }

  lemma IsDelivery(w: World, p: Proc, id: string)
    requires CanSucceed(w, p, id)
    ensures p.Working? && (p.made == [] ==> Open(w, id))
  {
    hide Open;
  }

  lemma QueuedIsObtainable(w: World, m: Contract.Envelope, req: Contract.BuildRequest)
    requires m in w.jobs && Contract.Receive(m) == Ok(req)
    ensures Obtainable(w, req)
  {}

  lemma SteppedCouldSucceed(w: World, a: Action, pid: nat, id: string)
    requires pid in After(w, a).procs && Stepped(w, a, pid, After(w, a).procs[pid]) && CanSucceed(After(w, a), After(w, a).procs[pid], id)
    requires id in After(w, a).rows ==> id in w.rows
    ensures CanSucceed(w, w.procs[pid], id)
  {
    hide After, Ahead, Moved, AfterWork, MaySucceed, Open, CanCall, NoRead, NoInsert;
    var p := w.procs[pid];
    var e := Ahead(p.request, w.limit, p.made, a.env)[0];
    OthersKeep(w, a);
    LessMaySucceed(p.request, w.limit, p.made, e);
    StepOfSuccess(p.request, w.limit, p.made, e);
    CallParts(w, a);
    NoneBefore(p.made, e);
    AnswersAllowed(w, p.request, e);
  }

  // The answers of a call were allowed by the world.
  lemma AnswersAllowed(w: World, req: Contract.BuildRequest, e: Worker.Effect)
    requires CanCall(w, req, e)
    ensures e == Worker.FetchCredential(true) ==> Open(w, req.deploymentId)
    ensures e == Worker.ReadTag(true) ==> req.deploymentId in w.rows
  {}

  lemma StepOfSuccess(req: Contract.BuildRequest, limit: int, made: seq<Worker.Effect>, e: Worker.Effect)
    requires MaySucceed(req, limit, made + [e])
    ensures Succeeding(req, made, e)
  {
    hide Worker.Delivery, Ahead, Succeeding;
    var env :| Worker.Completed in Ahead(req, limit, made + [e], env);
    MoreAhead(req, limit, made, e, env);
    SuccessCall(req, limit, made, env);
  }

  // ---------- Where messages come from ----------

  predicate Delivered(p: Proc, m: Contract.Envelope) { p.Working? && p.own && p.job == m }

  // The worker queues this message as a retry.
  ghost predicate Requeued(w: World, a: Action, m: Contract.Envelope) {
    && a.Work? && Enabled(w, a)
    && var e := NextCall(w, a);
       e.Republish? && e.publish.Arrived() && Contract.Publishing(e.request) == Ok(m)
  }

  // A dispatcher queues this message for its event.
  ghost predicate Sent(w: World, a: Action, m: Contract.Envelope) {
    && a.Dispatch? && Enabled(w, a)
    && var p := w.procs[a.pid];
       var e := EventAhead(p.event, p.published, a.answers, a.at, a.delay)[0];
       e.Send? && e.confirm.Arrived() && e.message == m
  }

  /** Where a queued message was before. */
  lemma MessageWas(w: World, a: Action, m: Contract.Envelope)
    requires m in After(w, a).jobs
    ensures || m in w.jobs || (exists pid | pid in w.procs :: Delivered(w.procs[pid], m))
            || Requeued(w, a, m) || Sent(w, a, m)
  {
    hide After, AfterWork, AfterDispatch, Ahead, EventAhead, CanCall, Contract.Publishing;
    if !Enabled(w, a) {
      DisabledChangesNothing(w, a);
    } else if Passive(a) {
      PassiveRecords(w, a);
    } else if Stops(a) {
      StoppedJobs(w, a, m);
    } else if Starts(a) {
      StartsParts(w, a);
    } else {
      CallParts(w, a);
      var p := w.procs[a.pid];
      if a.Work? {
        WorkJobs(w, a.pid, p, Ahead(p.request, w.limit, p.made, a.env), m);
      } else {
        DispatchJobs(w, a.pid, p.event, EventAhead(p.event, p.published, a.answers, a.at, a.delay), m);
      }
    }
  }

  lemma RedeliveredJobs(w: World, p: Proc, m: Contract.Envelope)
    requires m in Redelivered(w, p).jobs
    ensures m in w.jobs || Delivered(p, m)
  {}

  lemma StoppedJobs(w: World, a: Action, m: Contract.Envelope)
    requires Enabled(w, a) && Stops(a) && m in After(w, a).jobs
    ensures m in w.jobs || (a.pid in w.procs && Delivered(w.procs[a.pid], m))
  {
    StopIs(w, a);
    hide After, Enabled, Redelivered, StatusConsumer.Reported, StatusConsumer.Applied, StatusConsumer.Next, ParamsOf;
    var p := w.procs[a.pid];
    if a.Crash? {
      RedeliveredJobs(Stop(w, a.pid), p, m);
    } else if a.Disconnect? {
      RedeliveredJobs(w.(procs := w.procs[a.pid := p.(own := false)]), p, m);
    }
  }

  lemma WorkJobs(w: World, pid: nat, p: Proc, ahead: seq<Worker.Effect>, m: Contract.Envelope)
    requires p.Working? && ahead != [] && m in AfterWork(w, pid, p, ahead).jobs
    ensures m in w.jobs || Delivered(p, m)
            || (ahead[0].Republish? && ahead[0].publish.Arrived() && Contract.Publishing(ahead[0].request) == Ok(m))
  {
    CalledParts(w, p.request, ahead[0]);
    WorkedParts(Called(w, p.request, ahead[0]), pid, p, ahead);
    hide Called, Worked, Enqueued, Contract.Publishing, WorkHistory, Moved, Worker.PerformRows;
    EnqueuedJobs(Worked(Called(w, p.request, ahead[0]), pid, p, ahead), p.job, p.own, ahead[0], m);
  }

  lemma EnqueuedJobs(w: World, job: Contract.Envelope, own: bool, e: Worker.Effect, m: Contract.Envelope)
    requires m in Enqueued(w, job, own, e).jobs
    ensures m in w.jobs || (own && m == job) || (e.Republish? && e.publish.Arrived() && Contract.Publishing(e.request) == Ok(m))
  {
    hide Contract.Publishing;
  }

  lemma DispatchJobs(w: World, pid: nat, event: Dispatcher.Event, ahead: seq<Dispatcher.Effect>, m: Contract.Envelope)
    requires ahead != [] && m in AfterDispatch(w, pid, event, ahead).jobs
    ensures m in w.jobs || (ahead[0].Send? && ahead[0].confirm.Arrived() && ahead[0].message == m)
  {
    DispatchedParts(Confirmed(w, event.id, if ahead[0].Send? then ahead[0].confirm else Nacked), pid, event, ahead);
    DispatchedParts(w, pid, event, ahead);
    hide Dispatched, Dispatcher.Perform;
  }

  /** A message that can be had was to be had before: as itself, or as what it is the retry of. */
  ghost predicate Had(w: World, req: Contract.BuildRequest) {
    Obtainable(w, req) || (req.retryCount > 0 && exists first: Contract.BuildRequest :: first.deploymentId == req.deploymentId && Obtainable(w, first))
  }

  lemma QueuedWas(w: World, a: Action, m: Contract.Envelope, req: Contract.BuildRequest)
    requires Sound(w) && m in After(w, a).jobs && Contract.Receive(m) == Ok(req)
    ensures Obtainable(w, req)
  {
    hide Sound, After, Enabled, Contract.Receive, Contract.Publishing, Source, MayRetry, Requeued, Sent, MayQueue, CanBePublished;
    MessageWas(w, a, m);
    if pid :| pid in w.procs && Delivered(w.procs[pid], m) {
      DeliveredRequest(w, pid);
      assert Carries(w.procs[pid], req);
    } else if Requeued(w, a, m) {
      RequeuedWas(w, a, m, req);
    } else if Sent(w, a, m) {
      SentWas(w, a, m, req);
    }
  }

  lemma DeliveredRequest(w: World, pid: nat)
    requires Sound(w) && pid in w.procs && w.procs[pid].Working?
    ensures Contract.Receive(w.procs[pid].job) == Ok(w.procs[pid].request)
  {
    hide Sound, Contract.Receive, Genuine, Achieved, Protocol.Walk;
    ProcFound(w, pid);
  }

  lemma RequeuedWas(w: World, a: Action, m: Contract.Envelope, req: Contract.BuildRequest)
    requires Sound(w) && Requeued(w, a, m) && Contract.Receive(m) == Ok(req)
    ensures a.pid in w.procs && MayQueue(w.procs[a.pid], w.limit, req)
  {
    hide Sound, Ahead, CanCall, Achieved, Contract.Receive, Contract.Publishing, Contract.Retry, CallInOrder;
    var p := w.procs[a.pid];
    var ahead := Ahead(p.request, w.limit, p.made, a.env);
    ProcFound(w, a.pid);
    ProcInOrder(w.limit, w.history, w.rows.Keys, p, a.env);
    RepublishedInOrder(w, p, ahead);
    Contract.PublishedIsReceived(ahead[0].request);
    assert Worker.Republish(Contract.Retry(p.request), ahead[0].publish) in ahead;
  }

  lemma RepublishedInOrder(w: World, p: Proc, ahead: seq<Worker.Effect>)
    requires p.Working? && ahead != [] && CallInOrder(w.limit, p, ahead) && ahead[0].Republish?
    ensures ahead[0].request == Contract.Retry(p.request)
  {
    hide Contract.Receive, Contract.Valid, Contract.Retry, Protocol.Disciplined, Protocol.Advance, Worker.LimitReached, Moved;
  }

  lemma SentWas(w: World, a: Action, m: Contract.Envelope, req: Contract.BuildRequest)
    requires Sound(w) && Sent(w, a, m) && Contract.Receive(m) == Ok(req)
    ensures var id := w.procs[a.pid].event.id;
            a.pid in w.procs && id in w.history.recorded && Source(w.history.recorded[id]) == Some(req) && CanBePublished(w, id)
  {
    hide Sound, EventAhead, Contract.Receive, Dispatcher.Message;
    var p := w.procs[a.pid];
    ProcFound(w, a.pid);
    NextEffect(w.history, p.event, p.published, a.answers, a.at, a.delay);
    assert Unpublished(p, p.event.id);
  }

  // What may queue a retry after a call might have before it.
  lemma LessMayRetry(req: Contract.BuildRequest, limit: int, made: seq<Worker.Effect>, e: Worker.Effect)
    ensures MayRetry(req, limit, made + [e]) ==> MayRetry(req, limit, made)
  {
    hide Worker.Delivery, Ahead, Contract.Retry;
    if MayRetry(req, limit, made + [e]) {
      var env, publish: Publish :| publish.Arrived() && Worker.Republish(Contract.Retry(req), publish) in Ahead(req, limit, made + [e], env);
      MoreAhead(req, limit, made, e, env);
    }
  }

  lemma CarriedWas(w: World, a: Action, pid: nat, req: Contract.BuildRequest)
    requires Sound(w) && pid in After(w, a).procs && Carries(After(w, a).procs[pid], req)
    ensures Obtainable(w, req)
  {
    hide Sound, After, Enabled, Contract.Receive, Source, MayQueue, CanBePublished, Moved, Ahead;
    DeliveryWas(w, a, pid);
  }

  lemma RetryWas(w: World, a: Action, pid: nat, req: Contract.BuildRequest)
    requires Sound(w) && pid in After(w, a).procs && MayQueue(After(w, a).procs[pid], w.limit, req)
    ensures Had(w, req)
  {
    hide Sound, After, Enabled, Contract.Receive, Source, MayRetry, CanBePublished, Moved, Ahead, Contract.Retry, CanCall;
    var p' := After(w, a).procs[pid];
    DeliveryWas(w, a, pid);
    if Fresh(w, a, p') {
      QueuedIsObtainable(w, a.job, p'.request);
      BegunRetries(w, a.job, p'.request);
    } else if !(pid in w.procs && Persists(w.procs[pid], p')) {
      LessMayRetry(p'.request, w.limit, w.procs[pid].made, Ahead(p'.request, w.limit, w.procs[pid].made, a.env)[0]);
      assert MayQueue(w.procs[pid], w.limit, req);
    }
  }

  lemma BegunRetries(w: World, m: Contract.Envelope, first: Contract.BuildRequest)
    requires Sound(w) && m in w.jobs && Contract.Receive(m) == Ok(first) && MayRetry(first, w.limit, [])
    ensures Contract.Retry(first).retryCount > 0 && Contract.Retry(first).deploymentId == first.deploymentId
  {
    hide Sound, Contract.Receive, Contract.Valid, Worker.Delivery;
    var env, publish: Publish :| publish.Arrived() && Worker.Republish(Contract.Retry(first), publish) in Ahead(first, w.limit, [], env);
    NothingMade(first, w.limit, env);
    QueuedIsValid(first, w.limit, env, publish);
    Contract.ReceivedIsValid(m);
    RetriesArePositive(first);
  }

  lemma TablesGrantNoAttempt(rows: Outbox.Table, id: nat, ids: seq<nat>, now: int, lease: int, retention: int)
    ensures Outbox.CanClaim(rows, now, ids) && AttemptLeft(Outbox.ClaimAll(rows, ids, now), id) ==> AttemptLeft(rows, id)
    ensures AttemptLeft(Outbox.ResetAll(rows, now, lease), id) ==> AttemptLeft(rows, id)
    ensures AttemptLeft(Outbox.DeleteExpired(rows, now, retention), id) ==> AttemptLeft(rows, id)
  {
    if Outbox.CanClaim(rows, now, ids) {
      Dispatcher.BatchIsClaimable(rows, now, ids, id);
    }
    hide Outbox.CanClaim;
  }

  lemma PerformGrantsNoAttempt(rows: Outbox.Table, at: nat, e: Dispatcher.Effect, now: int, id: nat)
    ensures AttemptLeft(Dispatcher.Perform(rows, at, e, now), id) ==> AttemptLeft(rows, id)
  {}

  lemma ClaimedHadAttempt(w: World, ids: seq<nat>, e: Dispatcher.Event)
    requires Outbox.CanClaim(w.outbox, w.now, ids) && e in EventsOf(Outbox.ClaimAll(w.outbox, ids, w.now), ids)
    ensures AttemptLeft(w.outbox, e.id)
  {
    EventsOfIds(Outbox.ClaimAll(w.outbox, ids, w.now), ids);
    Dispatcher.BatchIsClaimable(w.outbox, w.now, ids, e.id);
  }

  // What the dispatchers of a world have of an event.
  ghost predicate Kept(w: World, id: nat) {
    (exists e | e in w.held :: e.id == id) || exists pid | pid in w.procs :: Unpublished(w.procs[pid], id)
  }

  lemma PassivePublishing(w: World, a: Action, id: nat)
    requires Enabled(w, a) && Passive(a) && id in w.history.recorded
    ensures AttemptLeft(After(w, a).outbox, id) ==> AttemptLeft(w.outbox, id)
    ensures Kept(After(w, a), id) ==> Kept(w, id) || AttemptLeft(w.outbox, id)
  {
    PassiveIs(w, a);
    MayClaim(w, a);
    hide After, Enabled, Outbox.CanClaim, AttemptLeft, Unpublished, Kept;
    TablesGrantNoAttempt(w.outbox, id, if a.Claim? then a.ids else [], w.now,
                         if a.ResetStuck? then a.lease else 0, if a.DeleteSent? then a.retention else 0);
    if a.Claim? {
      ClaimedKept(w, a.ids, a.reported, id);
    } else if Kept(After(w, a), id) {
      StillKept(w, After(w, a), id);
    }
    hide Outbox.ClaimAll, Outbox.ResetAll, Outbox.DeleteExpired;
  }

  lemma MayClaim(w: World, a: Action)
    requires Enabled(w, a)
    ensures a.Claim? ==> Outbox.CanClaim(w.outbox, w.now, a.ids)
    ensures a.Forget? ==> a.events <= w.held
  {
    hide Outbox.CanClaim;
  }

  lemma StillKept(w: World, w': World, id: nat)
    requires w'.procs == w.procs && w'.held <= w.held && Kept(w', id)
    ensures Kept(w, id)
  {}

  lemma ClaimedKept(w: World, ids: seq<nat>, reported: bool, id: nat)
    requires Outbox.CanClaim(w.outbox, w.now, ids)
    ensures Kept(AfterClaim(w, ids, reported), id) ==> Kept(w, id) || AttemptLeft(w.outbox, id)
  {
    forall e | e in EventsOf(Outbox.ClaimAll(w.outbox, ids, w.now), ids) ensures AttemptLeft(w.outbox, e.id) {
      ClaimedHadAttempt(w, ids, e);
    }
    hide Outbox.CanClaim, EventsOf, Outbox.ClaimAll, AttemptLeft, Unpublished;
  }

  // Processes that only go on, or have just begun, bring no event.
  lemma EvolvingKept(w: World, a: Action, id: nat)
    requires Evolves(w, a, After(w, a).procs) && After(w, a).held <= w.held && Kept(After(w, a), id)
    ensures Kept(w, id)
  {
    hide After, Contract.Receive;
  }

  lemma CallPublishing(w: World, a: Action, id: nat)
    requires Enabled(w, a) && Calls(a)
    ensures AttemptLeft(After(w, a).outbox, id) ==> AttemptLeft(w.outbox, id)
    ensures Kept(After(w, a), id) ==> Kept(w, id)
  {
    hide After, Enabled, AfterWork, AfterDispatch, Ahead, EventAhead, CanCall, WorkHistory, Worker.PerformRows, Moved, Contract.Publishing,
      Dispatcher.Perform, AttemptLeft;
    CallParts(w, a);
    var p := w.procs[a.pid];
    if a.Work? {
      WorkParts(w, a.pid, p, Ahead(p.request, w.limit, p.made, a.env));
    } else {
      var ahead := EventAhead(p.event, p.published, a.answers, a.at, a.delay);
      DispatchParts(w, a.pid, p.event, ahead);
      PerformGrantsNoAttempt(w.outbox, p.event.id, ahead[0], w.now, id);
    }
  }

  /** An event that can be published could be before, unless it is new. */
  lemma EventWas(w: World, a: Action, id: nat)
    requires id in w.history.recorded && CanBePublished(After(w, a), id)
    ensures CanBePublished(w, id)
  {
    hide After, Enabled, Unpublished;
    if !Enabled(w, a) {
      DisabledChangesNothing(w, a);
    } else if Passive(a) {
      PassivePublishing(w, a, id);
    } else if Stops(a) {
      StopsParts(w, a);
      if Kept(After(w, a), id) {
        EvolvingKept(w, a, id);
      }
    } else if Starts(a) {
      StartsParts(w, a);
      if Kept(After(w, a), id) {
        EvolvingKept(w, a, id);
      }
    } else {
      CallPublishing(w, a, id);
    }
  }

  // A new event belongs to a new deployment.
  lemma RecordedWas(w: World, a: Action, event: nat, req: Contract.BuildRequest)
    requires event in After(w, a).history.recorded && Source(After(w, a).history.recorded[event]) == Some(req)
    requires req.deploymentId in w.server
    ensures event in w.history.recorded && w.history.recorded[event] == After(w, a).history.recorded[event]
  {
    OthersKeep(w, a);
    hide After, Source;
  }

  lemma ObtainableWas(w: World, a: Action, req: Contract.BuildRequest)
    requires Sound(w) && Obtainable(After(w, a), req) && req.deploymentId in w.server
    ensures Had(w, req)
  {
    hide Sound, After, Contract.Receive, Source, Carries, MayQueue, CanBePublished;
    var w' := After(w, a);
    OthersKeep(w, a);
    if m :| m in w'.jobs && Contract.Receive(m) == Ok(req) {
      QueuedWas(w, a, m, req);
    } else if pid :| pid in w'.procs && Carries(w'.procs[pid], req) {
      CarriedWas(w, a, pid, req);
    } else if pid :| pid in w'.procs && MayQueue(w'.procs[pid], w'.limit, req) {
      RetryWas(w, a, pid, req);
    } else {
      var event :| event in w'.history.recorded && Source(w'.history.recorded[event]) == Some(req) && CanBePublished(w', event);
      RecordedWas(w, a, event, req);
      EventWas(w, a, event);
    }
  }

  /** No action brings hope back. */
  lemma HopeWas(w: World, a: Action, id: string)
    requires Sound(w) && id in w.server && Hope(After(w, a), id)
    ensures Hope(w, id)
  {
    hide Sound, After, Open, Finished, CanSucceed, Obtainable;
    var w' := After(w, a);
    if Finished(w', id) {
      FinishedWas(w, a, id);
    } else if pid :| pid in w'.procs && CanSucceed(w', w'.procs[pid], id) {
      SuccessWas(w, a, pid, id);
    } else {
      var req :| Promising(w', id, req);
      OpenWas(w, a, id);
      ObtainableWas(w, a, req);
      if id in w'.rows && id !in w.rows {
        RowWas(w, a, id);
      } else if Obtainable(w, req) {
        assert Promising(w, id, req);
      } else {
        var first: Contract.BuildRequest :| first.deploymentId == id && Obtainable(w, first);
        assert Promising(w, id, first);
      }
    }
  }

  lemma {:induction false} NoHopeEver(w: World, actions: seq<Action>, id: string)
    requires Sound(w) && id in w.server && Hope(Run(w, actions), id)
    ensures Hope(w, id)
  {
    hide Sound, After, Hope;
    if actions != [] {
      var shorter := actions[..|actions| - 1];
      LaterIsSound(w, shorter);
      RankNeverFalls(w, shorter, id);
      HopeWas(Run(w, shorter), actions[|actions| - 1], id);
      NoHopeEver(w, shorter, id);
    }
  }

  /**
   In every reachable state: some continuation completes a deployment exactly
   when it has been completed, or a worker is in an attempt that can still
   succeed, or the server would grant a credential and a message of it can be
   had whose delivery would find the worker's row or insert it.
   */
  lemma CanFinishExactly(w: World, id: string)
    requires Sound(w) && id in w.server
    ensures CanFinish(w, id) <==> Hope(w, id)
  {
    hide Sound, Run, Hope, Finished;
    if Hope(w, id) {
      HopeFinishes(w, id);
    }
    if actions :| Finished(Run(w, actions), id) {
      FinishedIsHope(Run(w, actions), id);
      NoHopeEver(w, actions, id);
    }
  }

  lemma FinishedIsHope(w: World, id: string)
    requires Finished(w, id)
    ensures Hope(w, id)
  {
    hide Finished, CanSucceed, Promising;
  }
}
