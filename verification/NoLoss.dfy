/**
 No accepted build is lost: whatever is interleaved and wherever processes
 crash, each recorded event that can be published is still unsent in the
 outbox, or its job is somewhere further on.
 */
module NoLoss {
  import opened Wrappers
  import Contract
  import opened Faults
  import opened Status
  import Outbox
  import Dispatcher
  import Worker
  import Protocol
  import StatusConsumer
  import Credentials
  import opened Pipeline
  import opened PipelineSafety
  import opened Frames

  // The message stands for this job, at whatever attempt.
  predicate For(m: Contract.Envelope, job: Contract.BuildRequest) {
    Contract.Receive(m).Ok? && Contract.JobOf(Contract.Receive(m).value) == job
  }

  ghost predicate Among(ms: multiset<Contract.Envelope>, job: Contract.BuildRequest) { exists m | m in ms :: For(m, job) }

  // An unacked delivery of the job, known to the broker, that is neither finished nor passed on.
  predicate InHand(p: Proc, job: Contract.BuildRequest) { p.Working? && p.own && !p.progress.secured && For(p.job, job) }

  ghost predicate BeingBuilt(procs: map<nat, Proc>, job: Contract.BuildRequest) {
    exists pid | pid in procs :: InHand(procs[pid], job)
  }

  /** The job is queued, dead-lettered, in a worker's hands or completed. */
  ghost predicate Present(w: World, job: Contract.BuildRequest) {
    Among(w.jobs, job) || Among(w.dlq, job) || BeingBuilt(w.procs, job) || job in w.history.done
  }

  ghost predicate Held(w: World, job: Contract.BuildRequest) { Present(w, job) || job in w.history.lost }

  ghost predicate Kept(w: World, id: nat) {
    id in w.history.recorded && Source(w.history.recorded[id]).Some? ==>
      Unsent(w.outbox, id) || Held(w, Contract.JobOf(Source(w.history.recorded[id]).value))
  }

  // A dispatcher about to record a publish as sent.
  ghost predicate SentIsHeld(w: World, p: Proc) {
    AboutToRecord(p) && p.event.id in w.history.recorded ==>
      Source(w.history.recorded[p.event.id]).Some? && Held(w, Contract.JobOf(Source(w.history.recorded[p.event.id]).value))
  }

  ghost predicate AllKept(w: World) {
    (forall id | id in w.history.recorded :: Kept(w, id)) && (forall pid | pid in w.procs :: SentIsHeld(w, w.procs[pid]))
  }

  // ---------- A job stays held ----------

  lemma HeldGrows(w: World, w': World, job: Contract.BuildRequest)
    requires Held(w, job) && w.jobs <= w'.jobs && w.dlq <= w'.dlq
    requires w.history.done <= w'.history.done && w.history.lost <= w'.history.lost
    requires forall pid | pid in w.procs && InHand(w.procs[pid], job) :: pid in w'.procs && w'.procs[pid] == w.procs[pid]
    ensures Held(w', job)
  {
    hide For;
    if Among(w.jobs, job) {
      var m :| m in w.jobs && For(m, job);
      assert m in w'.jobs;
    }
    if Among(w.dlq, job) {
      var m :| m in w.dlq && For(m, job);
      assert m in w'.dlq;
    }
  }

  lemma DeliverKeepsHeld(w: World, m: Contract.Envelope, settle: bool, job: Contract.BuildRequest)
    requires Held(w, job) && m in w.jobs && w.next !in w.procs && Contract.Receive(m).Ok?
    ensures Held(AfterDeliver(w, m, settle), job)
  {
    hide Contract.Receive, Contract.JobOf;
    var w' := AfterDeliver(w, m, settle);
    if For(m, job) {
      assert InHand(w'.procs[w.next], job);
    } else if Among(w.jobs, job) {
      var m' :| m' in w.jobs && For(m', job);
      assert m' in w'.jobs;
    } else {
      hide For;
      assert forall pid | pid in w.procs :: pid in w'.procs && w'.procs[pid] == w.procs[pid];
    }
  }

  /** A delivery in hand is not dropped before its job is somewhere else. */
  lemma WorkKeepsHeld(w: World, pid: nat, env: Worker.Env, job: Contract.BuildRequest)
    requires Sound(w) && Held(w, job) && Enabled(w, Work(pid, env))
    ensures Held(After(w, Work(pid, env)), job)
  {
    hide Sound, After, Enabled, ProcOk, Ahead, CanCall, AfterWork, For, Held, CallInOrder, InHand, WorkHistory, Worker.PerformRows, Moved;
    CallParts(w, Work(pid, env));
    var p := w.procs[pid];
    var ahead := Ahead(p.request, w.limit, p.made, env);
    if InHand(p, job) {
      ProcFound(w, pid);
      ProcInOrder(w.limit, w.history, w.rows.Keys, p, env);
      OwnJobStaysHeld(w, pid, p, ahead, job);
    } else {
      OthersStayHeld(w, pid, p, ahead, job);
    }
  }

  lemma OthersStayHeld(w: World, pid: nat, p: Proc, ahead: seq<Worker.Effect>, job: Contract.BuildRequest)
    requires Held(w, job) && pid in w.procs && p == w.procs[pid] && p.Working? && ahead != [] && !InHand(p, job)
    ensures Held(AfterWork(w, pid, p, ahead), job)
  {
    hide Contract.Publishing, WorkHistory, Worker.PerformRows, For, Moved, Held, AfterWork, InHand, Continued, Contract.JobOf, Untouched;
    var w' := AfterWork(w, pid, p, ahead);
    WorkParts(w, pid, p, ahead);
    HistoryAfterCall(w.history, w.rows, p.request, ahead[0]);
    forall x | x in w.procs && InHand(w.procs[x], job) ensures x in w'.procs && w'.procs[x] == w.procs[x] {
      assert x != pid;
    }
    HeldGrows(w, w', job);
  }

  lemma OwnJobStaysHeld(w: World, pid: nat, p: Proc, ahead: seq<Worker.Effect>, job: Contract.BuildRequest)
    requires p.Working? && ahead != [] && CallInOrder(w.limit, p, ahead) && InHand(p, job)
    ensures Held(AfterWork(w, pid, p, ahead), job)
  {
    hide AfterWork, CallInOrder, WorkHistory, Moved, For, Held;
    WorkParts(w, pid, p, ahead);
    HistoryAfterCall(w.history, w.rows, p.request, ahead[0]);
    OwnJobMoves(w, AfterWork(w, pid, p, ahead), pid, p, ahead, job);
  }

  lemma OwnJobMoves(w: World, w': World, pid: nat, p: Proc, ahead: seq<Worker.Effect>, job: Contract.BuildRequest)
    requires p.Working? && ahead != [] && CallInOrder(w.limit, p, ahead) && InHand(p, job)
    requires w'.procs == (if |ahead| == 1 then w.procs - {pid} else w.procs[pid := Continued(p, w.limit, ahead[0])])
    requires ahead[0].Discard? || ahead[0].Requeue? ==> p.job in w'.jobs || p.job in w'.dlq
    requires ahead[0].Republish? && ahead[0].publish.Arrived() && Contract.Publishing(ahead[0].request).Ok? ==>
               Contract.Publishing(ahead[0].request).value in w'.jobs
    requires ahead[0].Completed? ==> Contract.JobOf(p.request) in w'.history.done
    requires ahead[0].Republish? && ahead[0].publish.Vanished? ==> Contract.JobOf(p.request) in w'.history.lost
    ensures Held(w', job)
  {
    hide Contract.Receive, Contract.JobOf, Protocol.Advance, Protocol.Disciplined, Protocol.InOrder, Moved, Contract.Publishing,
      Contract.Retry, For, Held;
    var e, req := ahead[0], p.request;
    if e.Republish? && Contract.Publishing(e.request).Ok? && e.publish.Arrived() {
      RepublishedIsRetry(req, w.limit, p.progress, e);
      RetryIsForJob(p.job, req, job);
      InQueueIsHeld(w', Contract.Publishing(e.request).value, job);
    } else if e.Discard? || e.Requeue? {
      InQueueIsHeld(w', p.job, job);
    } else if e.Completed? || (e.Republish? && e.publish.Vanished?) {
      JobInHand(p.job, req, job);
      NotedIsHeld(w', job);
    } else {
      StaysInHand(req, w.limit, p.progress, e, ahead[1..]);
      InHandIsHeld(w', pid, job);
    }
  }

  lemma NotedIsHeld(w: World, job: Contract.BuildRequest)
    requires job in w.history.done || job in w.history.lost
    ensures Held(w, job)
  {
    hide For;
  }

  lemma InHandIsHeld(w: World, pid: nat, job: Contract.BuildRequest)
    requires pid in w.procs && InHand(w.procs[pid], job)
    ensures Held(w, job)
  {
    hide For;
  }

  lemma InQueueIsHeld(w: World, m: Contract.Envelope, job: Contract.BuildRequest)
    requires (m in w.jobs || m in w.dlq) && For(m, job)
    ensures Held(w, job)
  {
    hide For;
  }

  lemma JobInHand(m: Contract.Envelope, req: Contract.BuildRequest, job: Contract.BuildRequest)
    requires For(m, job) && Contract.Receive(m) == Ok(req)
    ensures Contract.JobOf(req) == job
  {}

  lemma RepublishedIsRetry(req: Contract.BuildRequest, limit: int, c: Protocol.Progress, e: Worker.Effect)
    requires Protocol.InOrder(req, limit, c, e) && e.Republish?
    ensures e.request == Contract.Retry(req)
  {
    hide Contract.Retry, Contract.Valid, Worker.LimitReached;
  }

  lemma RetryIsForJob(m: Contract.Envelope, req: Contract.BuildRequest, job: Contract.BuildRequest)
    requires For(m, job) && Contract.Receive(m) == Ok(req) && Contract.Publishing(Contract.Retry(req)).Ok?
    ensures For(Contract.Publishing(Contract.Retry(req)).value, job)
  {
    Contract.ReceivedIsValid(m);
    Contract.RetryStaysPublishable(req);
    Contract.PublishedIsReceived(Contract.Retry(req));
    hide Contract.Receive, Contract.Publishing, Contract.Valid;
  }

  /** No other call drops an unsecured delivery: an ack would be out of order. */
  lemma StaysInHand(req: Contract.BuildRequest, limit: int, c: Protocol.Progress, e: Worker.Effect, rest: seq<Worker.Effect>)
    requires !c.secured && Protocol.InOrder(req, limit, c, e) && Protocol.Advance(req, limit, c, e).Some?
    requires Protocol.Disciplined(req, limit, Moved(c, req, limit, e), rest)
    requires !(e.Discard? || e.Requeue? || e.Completed? || (e.Republish? && e.publish.Vanished?))
    requires !(e.Republish? && Contract.Publishing(e.request).Ok? && e.publish.Arrived())
    ensures rest != [] && !Moved(c, req, limit, e).secured
  {
    if e.Republish? {
      Contract.PublishedIsReceived(e.request);
    }
    hide Contract.Valid, Contract.Publishing, Contract.Retry, Worker.LimitReached, Contract.Receive;
  }

  lemma CrashKeepsHeld(w: World, pid: nat, job: Contract.BuildRequest)
    requires Held(w, job) && pid in w.procs
    ensures Held(AfterCrash(w, pid, w.procs[pid]), job)
  {
    hide For, Held, Redelivered;
    var w' := AfterCrash(w, pid, w.procs[pid]);
    RedeliveredParts(Stop(w, pid), w.procs[pid]);
    if InHand(w.procs[pid], job) {
      InQueueIsHeld(w', w.procs[pid].job, job);
    } else {
      HeldGrows(w, w', job);
    }
  }

  lemma DisconnectKeepsHeld(w: World, pid: nat, job: Contract.BuildRequest)
    requires Held(w, job) && pid in w.procs && !w.procs[pid].Dispatching?
    ensures Held(AfterDisconnect(w, pid, w.procs[pid]), job)
  {
    hide For, Held, Redelivered;
    var p, w' := w.procs[pid], AfterDisconnect(w, pid, w.procs[pid]);
    RedeliveredParts(w.(procs := w.procs[pid := p.(own := false)]), p);
    if InHand(p, job) {
      InQueueIsHeld(w', p.job, job);
    } else {
      HeldGrows(w, w', job);
    }
  }

  lemma DispatchKeepsHeld(w: World, a: Action, job: Contract.BuildRequest)
    requires Held(w, job) && Enabled(w, a) && a.Dispatch?
    ensures Held(After(w, a), job)
  {
    hide For, Held, After, Enabled, AfterDispatch, InHand, EventAhead, Dispatcher.Perform;
    CallParts(w, a);
    var p, w' := w.procs[a.pid], After(w, a);
    DispatchParts(w, a.pid, p.event, EventAhead(p.event, p.published, a.answers, a.at, a.delay));
    assert w.history.done <= w'.history.done && w.history.lost <= w'.history.lost;
    NotInHand(p, job);
    HeldGrows(w, w', job);
  }

  lemma NotInHand(p: Proc, job: Contract.BuildRequest)
    requires !p.Working?
    ensures !InHand(p, job)
  {}

  lemma TablesKeepHeld(w: World, w': World, job: Contract.BuildRequest)
    requires Held(w, job) && w'.jobs == w.jobs && w'.dlq == w.dlq && w'.procs == w.procs
    requires w'.history.done == w.history.done && w'.history.lost == w.history.lost
    ensures Held(w', job)
  {
    hide For, Held;
    HeldGrows(w, w', job);
  }

  lemma ApplyKeepsHeld(w: World, pid: nat, db: Db, job: Contract.BuildRequest)
    requires Held(w, job) && pid in w.procs && w.procs[pid].Consuming?
    ensures Held(AfterApply(w, pid, w.procs[pid], db), job)
  {
    hide For, Held, StatusConsumer.Reported, StatusConsumer.Applied, ParamsOf;
    HeldGrows(w, AfterApply(w, pid, w.procs[pid], db), job);
  }

  lemma SettleKeepsHeld(w: World, pid: nat, ok: bool, job: Contract.BuildRequest)
    requires Held(w, job) && pid in w.procs && w.procs[pid].Consuming?
    ensures Held(AfterSettle(w, pid, w.procs[pid], ok), job)
  {
    hide For, Held, StatusConsumer.Next;
    StoppedStaysHeld(w, pid, job);
    UpdateKeepsHeld(Stop(w, pid), w.procs[pid].update, job);
    hide AddUpdate, AddDeadUpdate, Stop;
  }

  lemma StoppedStaysHeld(w: World, pid: nat, job: Contract.BuildRequest)
    requires Held(w, job) && pid in w.procs && !InHand(w.procs[pid], job)
    ensures Held(Stop(w, pid), job)
  {
    hide For, Held, InHand;
    HeldGrows(w, Stop(w, pid), job);
  }

  lemma UpdateKeepsHeld(w: World, u: Update, job: Contract.BuildRequest)
    requires Held(w, job)
    ensures Held(AddUpdate(w, u), job) && Held(AddDeadUpdate(w, u), job)
  {
    hide For, Held;
    TablesKeepHeld(w, AddUpdate(w, u), job);
    TablesKeepHeld(w, AddDeadUpdate(w, u), job);
  }

  lemma DeliverUpdateKeepsHeld(w: World, update: Update, job: Contract.BuildRequest)
    requires Held(w, job) && w.next !in w.procs
    ensures Held(AfterDeliverUpdate(w, update), job)
  {
    UpdateMoves(w, update);
    UpdateMoves(TakeUpdate(w, update), update);
    hide For, Held, StatusConsumer.Decode, StatusConsumer.Encode, ParamsOf, TakeUpdate, AddDeadUpdate;
    HeldGrows(w, AfterDeliverUpdate(w, update), job);
  }

  lemma BeginKeepsHeld(w: World, e: Dispatcher.Event, job: Contract.BuildRequest)
    requires Held(w, job) && w.next !in w.procs
    ensures Held(AfterBegin(w, e), job)
  {
    hide For, Held;
    HeldGrows(w, AfterBegin(w, e), job);
  }

  lemma SoundProcs(w: World)
    requires Sound(w)
    ensures w.next !in w.procs && forall m | m in w.jobs :: Contract.Receive(m).Ok?
  {
    if w.next in w.procs {
      ProcFound(w, w.next);
    }
    hide ProcsOk, UpdatesOk, OutboxOk, ServerOk, WorkerRowsOk, HeldOk, Contract.Receive, Contract.Publishing;
    forall m | m in w.jobs ensures Contract.Receive(m).Ok? {
      assert Genuine(w.history, m);
    }
  }

  lemma PassiveKeepsHeld(w: World, a: Action, job: Contract.BuildRequest)
    requires Held(w, job) && Passive(a) && Enabled(w, a)
    ensures Held(After(w, a), job)
  {
    hide Held, Outbox.ResetAll, Outbox.DeleteExpired, Outbox.CanClaim, Outbox.ClaimAll, EventsOf;
    TablesKeepHeld(w, After(w, a), job);
  }

  lemma StartKeepsHeld(w: World, a: Action, job: Contract.BuildRequest)
    requires Sound(w) && Held(w, job) && Enabled(w, a) && Starts(a)
    ensures Held(After(w, a), job)
  {
    SoundProcs(w);
    StartIs(w, a);
    hide For, Sound, Held, After, Enabled, AfterBegin, AfterDeliver, AfterDeliverUpdate, Contract.Receive;
    if a.Begin? {
      BeginKeepsHeld(w, a.event, job);
    } else if a.Deliver? {
      DeliverKeepsHeld(w, a.job, a.settle, job);
    } else {
      DeliverUpdateKeepsHeld(w, a.update, job);
    }
  }

  lemma StopKeepsHeld(w: World, a: Action, job: Contract.BuildRequest)
    requires Held(w, job) && Enabled(w, a) && Stops(a)
    ensures Held(After(w, a), job)
  {
    StopIs(w, a);
    hide For, Held, After, Enabled, AfterApply, AfterSettle, AfterDisconnect, AfterCrash;
    match a {
      case ApplyUpdate(pid, db) => ApplyKeepsHeld(w, pid, db, job);
      case SettleUpdate(pid, ok) => SettleKeepsHeld(w, pid, ok, job);
      case Disconnect(pid) => DisconnectKeepsHeld(w, pid, job);
      case Crash(pid) => CrashKeepsHeld(w, pid, job);
    }
  }

  lemma CallKeepsHeld(w: World, a: Action, job: Contract.BuildRequest)
    requires Sound(w) && Held(w, job) && Enabled(w, a) && Calls(a)
    ensures Held(After(w, a), job)
  {
    hide Sound, Held, After, Enabled;
    if a.Work? {
      WorkKeepsHeld(w, a.pid, a.env, job);
    } else {
      DispatchKeepsHeld(w, a, job);
    }
  }

  /** Nothing that can happen drops a job. */
  lemma ActionKeepsHeld(w: World, a: Action, job: Contract.BuildRequest)
    requires Sound(w) && Held(w, job)
    ensures Held(After(w, a), job)
  {
    hide Sound, Held, After, Enabled;
    if !Enabled(w, a) {
      DisabledChangesNothing(w, a);
    } else if Passive(a) {
      PassiveKeepsHeld(w, a, job);
    } else if Stops(a) {
      StopKeepsHeld(w, a, job);
    } else if Starts(a) {
      StartKeepsHeld(w, a, job);
    } else {
      CallKeepsHeld(w, a, job);
    }
  }

  // ---------- An event stays kept ----------

  predicate RecordsSent(a: Action, w: World, id: nat) {
    a.Dispatch? && a.pid in w.procs && AboutToRecord(w.procs[a.pid]) && w.procs[a.pid].event.id == id
  }

  lemma PerformedUnsent(outbox: Outbox.Table, id: nat, e: Dispatcher.Effect, now: int, x: nat)
    requires Unsent(outbox, x) && !(e.RecordSent? && id == x)
    ensures Unsent(Dispatcher.Perform(outbox, id, e, now), x)
  {}

  lemma OnlyAckedRecords(p: Proc, answers: Dispatcher.EventEnv, at: int, delay: int)
    requires p.Dispatching? && EventAhead(p.event, p.published, answers, at, delay) != []
    ensures EventAhead(p.event, p.published, answers, at, delay)[0].RecordSent? ==> AboutToRecord(p)
  {
    hide Dispatcher.Message;
  }

  /** Only recording a publish makes a row sent. */
  lemma UnsentStays(w: World, a: Action, id: nat)
    requires Unsent(w.outbox, id) && !RecordsSent(a, w, id) && id in w.history.recorded
    ensures Unsent(After(w, a).outbox, id)
  {
    hide AfterWork, AfterDispatch, Ahead, EventAhead, AboutToRecord, Outbox.CanClaim, CanCall, EventsOf, After, Enabled;
    if !Enabled(w, a) {
      DisabledChangesNothing(w, a);
    } else if Passive(a) {
      PassiveParts(w, a);
    } else if Stops(a) {
      StopsParts(w, a);
    } else if Starts(a) {
      StartsParts(w, a);
    } else {
      CallParts(w, a);
      var p := w.procs[a.pid];
      if a.Work? {
        WorkKeepsOutbox(w, a.pid, p, Ahead(p.request, w.limit, p.made, a.env));
      } else {
        var ahead := EventAhead(p.event, p.published, a.answers, a.at, a.delay);
        DispatchParts(w, a.pid, p.event, ahead);
        if !ahead[0].Send? {
          OnlyAckedRecords(p, a.answers, a.at, a.delay);
          PerformedUnsent(w.outbox, p.event.id, ahead[0], w.now, id);
        }
      }
    }
  }

  lemma RecordedStays(w: World, a: Action)
    ensures forall id | id in w.history.recorded ::
              id in After(w, a).history.recorded && After(w, a).history.recorded[id] == w.history.recorded[id]
    ensures forall id | id in After(w, a).history.recorded && id !in w.history.recorded :: Unsent(After(w, a).outbox, id)
  {
    hide AfterWork, AfterDispatch, Ahead, EventAhead, AboutToRecord, Outbox.CanClaim, CanCall, EventsOf, After, Enabled;
    if !Enabled(w, a) {
      DisabledChangesNothing(w, a);
    } else if Passive(a) {
      PassiveParts(w, a);
    } else if Stops(a) {
      StopsParts(w, a);
    } else if Starts(a) {
      StartsParts(w, a);
    } else {
      CallParts(w, a);
      var p := w.procs[a.pid];
      if a.Work? {
        WorkKeepsOutbox(w, a.pid, p, Ahead(p.request, w.limit, p.made, a.env));
      } else {
        var ahead := EventAhead(p.event, p.published, a.answers, a.at, a.delay);
        DispatchParts(w, a.pid, p.event, ahead);
      }
    }
  }

  // This action publishes the process's event, and the broker acks it.
  predicate PublishesAcked(w: World, a: Action, pid: nat) {
    && a.Dispatch? && a.pid == pid && pid in w.procs && w.procs[pid].Dispatching?
    && var p := w.procs[pid];
       var ahead := EventAhead(p.event, p.published, a.answers, a.at, a.delay);
       ahead != [] && ahead[0].Send? && ahead[0].confirm.Acked?
  }

  /** A dispatcher gets to record a publish as sent only by an acked publish. */
  lemma RecordFollowsSend(w: World, a: Action, pid: nat)
    requires Sound(w) && pid in After(w, a).procs && AboutToRecord(After(w, a).procs[pid])
    ensures (pid in w.procs && w.procs[pid] == After(w, a).procs[pid])
            || (PublishesAcked(w, a, pid) && After(w, a).procs[pid].event == w.procs[pid].event)
  {
    hide Sound, ProcOk, After, Enabled, AboutToRecord, PublishesAcked;
    if Enabled(w, a) {
      if a.Work? {
        WorkRecordsNothing(w, a, pid);
      } else if a.Dispatch? {
        DispatchRecordsAck(w, a, pid);
      } else if Passive(a) {
        PassiveRecordsNothing(w, a, pid);
      } else if Stops(a) {
        StopsRecordNothing(w, a, pid);
      } else {
        StartsRecordNothing(w, a, pid);
      }
    } else {
      DisabledChangesNothing(w, a);
    }
  }

  lemma WorkRecordsNothing(w: World, a: Action, pid: nat)
    requires Enabled(w, a) && a.Work? && pid in After(w, a).procs && AboutToRecord(After(w, a).procs[pid])
    ensures pid in w.procs && w.procs[pid] == After(w, a).procs[pid]
  {
    hide After, Enabled, AfterWork, CanCall, Ahead, Moved, WorkHistory, Contract.Publishing;
    CallParts(w, a);
    WorkParts(w, a.pid, w.procs[a.pid], Ahead(w.procs[a.pid].request, w.limit, w.procs[a.pid].made, a.env));
  }

  lemma DispatchRecordsAck(w: World, a: Action, pid: nat)
    requires Enabled(w, a) && a.Dispatch? && pid in After(w, a).procs && AboutToRecord(After(w, a).procs[pid])
    ensures (pid in w.procs && w.procs[pid] == After(w, a).procs[pid])
            || (PublishesAcked(w, a, pid) && After(w, a).procs[pid].event == w.procs[pid].event)
  {
    hide After, Enabled, AfterDispatch, EventAhead, Dispatcher.Perform;
    CallParts(w, a);
    var p := w.procs[a.pid];
    DispatchParts(w, a.pid, p.event, EventAhead(p.event, p.published, a.answers, a.at, a.delay));
  }

  lemma StartsRecordNothing(w: World, a: Action, pid: nat)
    requires Enabled(w, a) && Starts(a) && pid in After(w, a).procs
    requires AboutToRecord(After(w, a).procs[pid])
    ensures pid in w.procs && w.procs[pid] == After(w, a).procs[pid]
  {
    StartsParts(w, a);
    hide After, Enabled;
  }

  lemma StopsRecordNothing(w: World, a: Action, pid: nat)
    requires Enabled(w, a) && Stops(a) && pid in After(w, a).procs
    requires AboutToRecord(After(w, a).procs[pid])
    ensures pid in w.procs && w.procs[pid] == After(w, a).procs[pid]
  {
    StopsParts(w, a);
    hide After, Enabled;
  }

  lemma PassiveRecordsNothing(w: World, a: Action, pid: nat)
    requires Enabled(w, a) && (Passive(a)) && pid in After(w, a).procs && AboutToRecord(After(w, a).procs[pid])
    ensures pid in w.procs && w.procs[pid] == After(w, a).procs[pid]
  {
    PassiveParts(w, a);
    hide After, Enabled, AboutToRecord;
  }

  lemma AckedIsHeld(w: World, a: Action, pid: nat)
    requires Sound(w) && Enabled(w, a) && PublishesAcked(w, a, pid)
    ensures var id := w.procs[pid].event.id;
            && id in w.history.recorded && Source(w.history.recorded[id]).Some?
            && Held(After(w, a), Contract.JobOf(Source(w.history.recorded[id]).value))
  {
    hide Sound, After, Enabled, EventAhead, EventInOrder, Dispatcher.Message, Contract.Receive, Source, Contract.JobOf, AfterDispatch, Held, Genuine;
    CallParts(w, a);
    var p := w.procs[pid];
    var ahead := EventAhead(p.event, p.published, a.answers, a.at, a.delay);
    ProcFound(w, pid);
    NextEffect(w.history, p.event, p.published, a.answers, a.at, a.delay);
    MessageIsGenuine(w.history, p.event.id, ahead[0].message);
    SentIsReceived(w.history, ahead[0].message);
    DispatchParts(w, pid, p.event, ahead);
    InQueueIsHeld(After(w, a), ahead[0].message, Contract.JobOf(Source(w.history.recorded[p.event.id]).value));
  }

  lemma SentIsReceived(h: History, m: Contract.Envelope)
    requires Genuine(h, m)
    ensures Contract.Receive(m).Ok? && For(m, Contract.JobOf(Contract.Receive(m).value))
  {
    hide Contract.Receive, Contract.Publishing, Source;
  }

  lemma ActionKeepsEvents(w: World, a: Action)
    requires Sound(w) && AllKept(w)
    ensures AllKept(After(w, a))
  {
    hide Sound, Held, After, Source, Contract.JobOf;
    var w' := After(w, a);
    RecordedStays(w, a);
    forall id | id in w'.history.recorded ensures Kept(w', id) {
      if id in w.history.recorded && Source(w.history.recorded[id]).Some? {
        assert Kept(w, id);
        var job := Contract.JobOf(Source(w.history.recorded[id]).value);
        if RecordsSent(a, w, id) {
          assert SentIsHeld(w, w.procs[a.pid]);
        }
        if Held(w, job) {
          ActionKeepsHeld(w, a, job);
        } else {
          UnsentStays(w, a, id);
        }
      }
    }
    forall pid | pid in w'.procs ensures SentIsHeld(w', w'.procs[pid]) {
      if AboutToRecord(w'.procs[pid]) {
        ActionKeepsSentHeld(w, a, pid);
      }
    }
  }

  lemma ActionKeepsSentHeld(w: World, a: Action, pid: nat)
    requires Sound(w) && AllKept(w) && pid in After(w, a).procs && AboutToRecord(After(w, a).procs[pid])
    ensures SentIsHeld(After(w, a), After(w, a).procs[pid])
  {
    hide Sound, Held, After, Source, Contract.JobOf, Kept;
    var w' := After(w, a);
    RecordedStays(w, a);
    RecordFollowsSend(w, a, pid);
    if pid in w.procs && w.procs[pid] == w'.procs[pid] {
      assert SentIsHeld(w, w.procs[pid]);
      RecordedEvent(w, pid);
      ActionKeepsHeld(w, a, Contract.JobOf(Source(w.history.recorded[w.procs[pid].event.id]).value));
    } else {
      PublisherIsEnabled(w, a);
      AckedIsHeld(w, a, pid);
    }
  }

  lemma PublisherIsEnabled(w: World, a: Action)
    requires a.Dispatch? && PublishesAcked(w, a, a.pid)
    ensures Enabled(w, a)
  {}

  lemma RecordedEvent(w: World, pid: nat)
    requires Sound(w) && pid in w.procs && w.procs[pid].Dispatching?
    ensures w.procs[pid].event.id in w.history.recorded
  {
    hide Sound, Dispatcher.Message;
    ProcFound(w, pid);
  }

  // ---------- Runs ----------

  // Whether a retry can be published and vanish.
  predicate CanLose(w: World) { w.unconfirmed && w.limit > 1 }

  lemma OnlyUnconfirmedLoses(w: World, a: Action)
    requires Sound(w) && (CanLose(w) || w.history.lost == {})
    ensures var w' := After(w, a);
            w'.unconfirmed == w.unconfirmed && w'.limit == w.limit && (CanLose(w') || w'.history.lost == {})
  {
    hide AfterWork, AfterDispatch, CanCall, After, Enabled, Sound;
    if !Enabled(w, a) {
      DisabledChangesNothing(w, a);
    } else if Passive(a) {
      PassiveParts(w, a);
    } else if Stops(a) {
      StopsParts(w, a);
    } else if Starts(a) {
      StartsParts(w, a);
    } else {
      CallParts(w, a);
      if a.Work? {
        WorkLoses(w, a);
      } else {
        DispatchLoses(w, a);
      }
    }
  }

  lemma WorkLoses(w: World, a: Action)
    requires Sound(w) && Enabled(w, a) && a.Work?
    ensures var w' := After(w, a);
            && w'.unconfirmed == w.unconfirmed && w'.limit == w.limit
            && (w'.history.lost == w.history.lost || CanLose(w))
  {
    hide Sound, After, Enabled, ProcOk, Ahead, AfterWork, WorkHistory, Moved, Contract.Publishing, CanCall, Protocol.InOrder, Protocol.Advance,
      Protocol.Disciplined, Contract.Receive, Contract.Valid, Achieved;
    CallParts(w, a);
    var p := w.procs[a.pid];
    var ahead := Ahead(p.request, w.limit, p.made, a.env);
    WorkParts(w, a.pid, p, ahead);
    ProcFound(w, a.pid);
    ProcInOrder(w.limit, w.history, w.rows.Keys, p, a.env);
    Contract.ReceivedIsValid(p.job);
    CallLoses(w, p.request, p.progress, ahead[0]);
  }

  lemma CallLoses(w: World, req: Contract.BuildRequest, c: Protocol.Progress, e: Worker.Effect)
    requires CanCall(w, req, e) && Contract.Valid(req) && Protocol.InOrder(req, w.limit, c, e)
    ensures WorkHistory(w.history, w.rows, req, e).lost == w.history.lost || CanLose(w)
  {
    if e.Republish? {
      RetriesArePositive(req);
    }
    hide Credentials.Available, Contract.JobOf, Contract.Valid, Contract.Retry;
  }

  lemma RetriesArePositive(req: Contract.BuildRequest)
    requires Contract.Valid(req)
    ensures Contract.Valid(Contract.Retry(req)) ==> Contract.Retry(req).retryCount >= 1
  {
    CountIsNatural(req);
    CountIsNatural(Contract.Retry(req));
    hide Contract.Valid;
  }

  lemma CountIsNatural(req: Contract.BuildRequest)
    ensures Contract.Valid(req) ==> req.retryCount >= 0
  {}

  lemma DispatchLoses(w: World, a: Action)
    requires Enabled(w, a) && a.Dispatch?
    ensures var w' := After(w, a);
            w'.unconfirmed == w.unconfirmed && w'.limit == w.limit && w'.history.lost == w.history.lost
  {
    hide After, Enabled, EventAhead, AfterDispatch, Dispatcher.Perform;
    CallParts(w, a);
    var p := w.procs[a.pid];
    DispatchParts(w, a.pid, p.event, EventAhead(p.event, p.published, a.answers, a.at, a.delay));
  }

  lemma {:induction false} RunKeepsEvents(limit: int, unconfirmed: bool, actions: seq<Action>)
    ensures var w := Run(Start(limit, unconfirmed), actions);
            && Sound(w) && AllKept(w) && w.unconfirmed == unconfirmed && w.limit == limit
            && (CanLose(w) || w.history.lost == {})
  {
    hide Sound, AllKept, After;
    if actions != [] {
      var shorter, a := actions[..|actions| - 1], actions[|actions| - 1];
      RunKeepsEvents(limit, unconfirmed, shorter);
      var w := Run(Start(limit, unconfirmed), shorter);
      ActionKeepsSound(w, a);
      ActionKeepsEvents(w, a);
      OnlyUnconfirmedLoses(w, a);
    } else {
      RunIsSound(limit, unconfirmed, actions);
      NothingRecorded(limit, unconfirmed);
    }
  }

  lemma NothingRecorded(limit: int, unconfirmed: bool)
    ensures AllKept(Start(limit, unconfirmed))
  {}
}
