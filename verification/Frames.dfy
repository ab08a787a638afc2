/**
 What each action leaves as it was: the frames that the proofs about whole runs
 share.
 */
module Frames {
  import opened Wrappers
  import Contract
  import opened Faults
  import opened Status
  import Outbox
  import Dispatcher
  import Worker
  import Protocol
  import StatusConsumer
  import opened Pipeline
  import opened PipelineSafety

  predicate Unsent(outbox: Outbox.Table, id: nat) { id in outbox && !outbox[id].state.Sent? }

  lemma HistoryAfterCall(h: History, rows: Worker.Rows, req: Contract.BuildRequest, e: Worker.Effect)
    ensures var h' := WorkHistory(h, rows, req, e);
            && h.done <= h'.done && h.lost <= h'.lost
            && (e.Completed? ==> Contract.JobOf(req) in h'.done)
            && (e.Republish? && e.publish.Vanished? ==> Contract.JobOf(req) in h'.lost)
  {}

  // The parts of the world a worker's call does not touch.
  predicate Untouched(w: World, w': World) {
    && w'.outbox == w.outbox && w'.held == w.held && w'.server == w.server
    && w'.unconfirmed == w.unconfirmed && w'.limit == w.limit && w'.next == w.next
  }

  /** What a call changes, part by part. */
  lemma WorkParts(w: World, pid: nat, p: Proc, ahead: seq<Worker.Effect>)
    requires p.Working? && ahead != []
    ensures var w', e := AfterWork(w, pid, p, ahead), ahead[0];
            && w'.procs == (if |ahead| == 1 then w.procs - {pid} else w.procs[pid := Continued(p, w.limit, e)])
            && w'.history == WorkHistory(w.history, w.rows, p.request, e) && w'.rows == Worker.PerformRows(w.rows, p.request, e)
            && w.jobs <= w'.jobs && w.dlq <= w'.dlq && Untouched(w, w')
            && (p.own && (e.Discard? || e.Requeue?) ==> p.job in w'.jobs || p.job in w'.dlq)
            && (e.Republish? && e.publish.Arrived() && Contract.Publishing(e.request).Ok? ==>
                  Contract.Publishing(e.request).value in w'.jobs)
  {
    hide Called, Worked, Enqueued, Contract.Publishing, WorkHistory, Moved;
    CalledParts(w, p.request, ahead[0]);
    WorkedParts(Called(w, p.request, ahead[0]), pid, p, ahead);
    EnqueuedParts(Worked(Called(w, p.request, ahead[0]), pid, p, ahead), p.job, p.own, ahead[0]);
  }

  lemma CalledParts(w: World, req: Contract.BuildRequest, e: Worker.Effect)
    ensures var w' := Called(w, req, e);
            && w'.procs == w.procs && w'.jobs == w.jobs && w'.dlq == w.dlq && w'.history == WorkHistory(w.history, w.rows, req, e)
            && Untouched(w, w') && w'.rows == Worker.PerformRows(w.rows, req, e)
  {
    hide WorkHistory, Worker.PerformRows;
  }

  lemma WorkedParts(w: World, pid: nat, p: Proc, ahead: seq<Worker.Effect>)
    requires p.Working? && ahead != []
    ensures var w' := Worked(w, pid, p, ahead);
            && w'.procs == (if |ahead| == 1 then w.procs - {pid} else w.procs[pid := Continued(p, w.limit, ahead[0])])
            && w'.jobs == w.jobs && w'.dlq == w.dlq && w'.history == w.history
            && Untouched(w, w') && w'.rows == w.rows
  {
    hide Moved;
  }

  lemma EnqueuedParts(w: World, job: Contract.Envelope, own: bool, e: Worker.Effect)
    ensures var w' := Enqueued(w, job, own, e);
            && w'.procs == w.procs && w'.history == w.history && w.jobs <= w'.jobs && w.dlq <= w'.dlq
            && Untouched(w, w') && w'.rows == w.rows
            && (own && (e.Discard? || e.Requeue?) ==> job in w'.jobs || job in w'.dlq)
            && (e.Republish? && e.publish.Arrived() && Contract.Publishing(e.request).Ok? ==>
                  Contract.Publishing(e.request).value in w'.jobs)
  {
    hide Contract.Publishing, AddJob, AddDead, AddUpdate;
    AddedParts(w, job);
    if e.Republish? && Contract.Publishing(e.request).Ok? {
      AddedParts(w, Contract.Publishing(e.request).value);
    } else if e.Announce? {
      AnnouncedParts(w, e.update);
    }
  }

  lemma AddedParts(w: World, m: Contract.Envelope)
    ensures var w' := AddJob(w, m);
            && w'.procs == w.procs && w'.history == w.history && w.jobs <= w'.jobs && m in w'.jobs && w'.dlq == w.dlq
            && Untouched(w, w') && w'.rows == w.rows
    ensures var w' := AddDead(w, m);
            && w'.procs == w.procs && w'.history == w.history && w'.jobs == w.jobs && w.dlq <= w'.dlq && m in w'.dlq
            && Untouched(w, w') && w'.rows == w.rows
  {}

  lemma AnnouncedParts(w: World, u: Update)
    ensures var w' := AddUpdate(w, u);
            && w'.procs == w.procs && w'.history == w.history && w'.jobs == w.jobs && w'.dlq == w.dlq
            && Untouched(w, w') && w'.rows == w.rows
  {}

  // A worker's next call and what is left after it.
  predicate CallInOrder(limit: int, p: Proc, ahead: seq<Worker.Effect>)
    requires p.Working? && ahead != []
  {
    && Contract.Receive(p.job) == Ok(p.request)
    && Protocol.InOrder(p.request, limit, p.progress, ahead[0]) && Protocol.Advance(p.request, limit, p.progress, ahead[0]).Some?
    && Protocol.Disciplined(p.request, limit, Moved(p.progress, p.request, limit, ahead[0]), ahead[1..])
  }

  lemma ProcInOrder(limit: int, h: History, ids: set<string>, p: Proc, env: Worker.Env)
    requires p.Working? && ProcOk(limit, h, ids, p) && Ahead(p.request, limit, p.made, env) != []
    ensures CallInOrder(limit, p, Ahead(p.request, limit, p.made, env)) && Achieved(h, ids, p.request.deploymentId, p.progress)
  {
    hide Ahead, Contract.Receive, Protocol.Walk, Protocol.Advance, Protocol.Disciplined, Protocol.InOrder, Genuine, Achieved, Moved;
    AheadInOrder(p.request, limit, p.made, p.progress, env);
  }

  lemma DispatchParts(w: World, pid: nat, event: Dispatcher.Event, ahead: seq<Dispatcher.Effect>)
    requires ahead != []
    ensures var w', e := AfterDispatch(w, pid, event, ahead), ahead[0];
            && w'.procs == (if e.Send? && |ahead| > 1 then w.procs[pid := Dispatching(event, Some(e.confirm))] else w.procs - {pid})
            && w.jobs <= w'.jobs && w'.dlq == w.dlq
            && w'.history == (if e.Send? then Confirmed(w, event.id, e.confirm) else w).history
            && w'.unconfirmed == w.unconfirmed && w'.limit == w.limit && w'.server == w.server && w'.rows == w.rows
            && w'.held == w.held
            && (e.Send? && e.confirm.Acked? ==> e.message in w'.jobs)
            && w'.outbox == (if e.Send? then w.outbox else Dispatcher.Perform(w.outbox, event.id, e, w.now))
  {
    DispatchedParts(Confirmed(w, event.id, if ahead[0].Send? then ahead[0].confirm else Nacked), pid, event, ahead);
    if ahead[0].Send? {
      AddedParts(Dispatched(Confirmed(w, event.id, ahead[0].confirm), pid, event, ahead), ahead[0].message);
    }
    hide Dispatcher.Perform, Dispatched, AddJob;
  }

  lemma DispatchedParts(w: World, pid: nat, event: Dispatcher.Event, ahead: seq<Dispatcher.Effect>)
    requires ahead != []
    ensures var w', e := Dispatched(w, pid, event, ahead), ahead[0];
            && w'.procs == (if e.Send? && |ahead| > 1 then w.procs[pid := Dispatching(event, Some(e.confirm))] else w.procs - {pid})
            && w'.jobs == w.jobs && w'.dlq == w.dlq && w'.history == w.history && w'.now == w.now
            && Untouched(w, w') && w'.rows == w.rows
  {}

  // Statements on the outbox, memory that is lost, time that passes.
  predicate Passive(a: Action) { a.Record? || a.Claim? || a.Forget? || a.ResetStuck? || a.DeleteSent? || a.Wait? }

  // A process is started.
  predicate Starts(a: Action) { a.Begin? || a.Deliver? || a.DeliverUpdate? }

  // A process applies an update, ends, or loses its session.
  predicate Stops(a: Action) { a.ApplyUpdate? || a.SettleUpdate? || a.Disconnect? || a.Crash? }

  // A dispatcher or a worker makes a call.
  predicate Calls(a: Action) { a.Work? || a.Dispatch? }

  lemma WorkKeepsOutbox(w: World, pid: nat, p: Proc, ahead: seq<Worker.Effect>)
    requires p.Working? && ahead != []
    ensures AfterWork(w, pid, p, ahead).outbox == w.outbox && AfterWork(w, pid, p, ahead).history.recorded == w.history.recorded
  {
    WorkParts(w, pid, p, ahead);
    WorkKeepsRecords(w.history, w.rows, p.request, ahead[0]);
    hide AfterWork, WorkHistory, Moved, Contract.Publishing;
  }

  // Neither the outbox nor history changes.
  predicate Unrecorded(w: World, w': World) {
    && w'.outbox == w.outbox && w'.history == w.history && w'.unconfirmed == w.unconfirmed && w'.limit == w.limit
    && w'.rows == w.rows
  }

  // The same process, but for its session, or the updates it has applied.
  predicate Persists(p: Proc, p': Proc) {
    match p'
    case Dispatching(_, _) => p == p'
    case Working(_, _, _, _, own) => p.Working? && p' == Working(p.job, p.request, p.made, p.progress, own) && (own ==> p.own)
    case Consuming(_, _, _) => p.Consuming?
  }

  // A process that this action has just started.
  predicate Fresh(w: World, a: Action, p: Proc) {
    match p
    case Dispatching(event, published) => a == Begin(event) && event in w.held && published.None?
    case Working(job, req, made, c, own) =>
      a.Deliver? && a.job == job && job in w.jobs && Contract.Receive(job) == Ok(req) && made == [] && c == Protocol.NO_PROGRESS
    case Consuming(_, _, _) => a.DeliverUpdate?
  }

  predicate Evolves(w: World, a: Action, procs: map<nat, Proc>) {
    forall pid | pid in procs :: (pid in w.procs && Persists(w.procs[pid], procs[pid])) || Fresh(w, a, procs[pid])
  }

  lemma ProcsEvolve(w: World, a: Action, pid: nat, p: Proc)
    requires (pid in w.procs && Persists(w.procs[pid], p)) || Fresh(w, a, p)
    ensures Evolves(w, a, w.procs[pid := p])
  {
    ProcsStopped(w, a, pid);
    hide Persists, Fresh;
  }

  lemma ProcsStopped(w: World, a: Action, pid: nat)
    ensures Evolves(w, a, w.procs - {pid}) && Evolves(w, a, w.procs)
  {
    hide Fresh;
  }

  // A process that may record a publish, or holds a credential.
  predicate Entitled(p: Proc) { AboutToRecord(p) || (p.Working? && p.progress.granted) }

  // No process became entitled.
  predicate EntitlesNone(procs: map<nat, Proc>, procs': map<nat, Proc>) {
    forall pid | pid in procs' && Entitled(procs'[pid]) :: pid in procs && Persists(procs[pid], procs'[pid])
  }

  lemma StartEntitlesNone(w: World, a: Action, procs: map<nat, Proc>)
    requires Evolves(w, a, procs)
    ensures EntitlesNone(w.procs, procs)
  {
    hide Contract.Receive;
  }

  lemma StartsParts(w: World, a: Action)
    requires Enabled(w, a) && Starts(a)
    ensures var w' := After(w, a);
            && Unrecorded(w, w') && w'.server == w.server && w'.jobs <= w.jobs && w'.held <= w.held
            && Evolves(w, a, w'.procs) && EntitlesNone(w.procs, w'.procs)
  {
    StartIs(w, a);
    hide AfterBegin, AfterDeliver, AfterDeliverUpdate, Unrecorded, Evolves, EntitlesNone, After, Enabled;
    if a.Begin? {
      BeginParts(w, a.event);
    } else if a.Deliver? {
      DeliverParts(w, a.job, a.settle);
    } else {
      DeliverUpdateParts(w, a.update);
    }
    StartEntitlesNone(w, a, After(w, a).procs);
  }

  // What the start of a process comes to.
  lemma StartIs(w: World, a: Action)
    requires Enabled(w, a)
    ensures a.Begin? ==> a.event in w.held && After(w, a) == AfterBegin(w, a.event)
    ensures a.Deliver? ==> a.job in w.jobs && After(w, a) == AfterDeliver(w, a.job, a.settle)
    ensures a.DeliverUpdate? ==> After(w, a) == AfterDeliverUpdate(w, a.update)
  {
    hide AfterBegin, AfterDeliver, AfterDeliverUpdate;
  }

  lemma BeginParts(w: World, e: Dispatcher.Event)
    requires e in w.held
    ensures var w' := AfterBegin(w, e);
            && Unrecorded(w, w') && w'.server == w.server && w'.jobs <= w.jobs && w'.held <= w.held && Evolves(w, Begin(e), w'.procs)
  {
    hide Evolves;
    ProcsEvolve(w, Begin(e), w.next, Dispatching(e, None));
  }

  lemma DeliverParts(w: World, m: Contract.Envelope, settle: bool)
    requires m in w.jobs
    ensures var w' := AfterDeliver(w, m, settle);
            && Unrecorded(w, w') && w'.server == w.server && w'.jobs <= w.jobs && w'.held <= w.held && Evolves(w, Deliver(m, settle), w'.procs)
  {
    AddedParts(w.(jobs := w.jobs - multiset{m}), m);
    ProcsStopped(w, Deliver(m, settle), w.next);
    hide Evolves, Contract.Receive, AddDead;
    if Contract.Receive(m).Ok? {
      ProcsEvolve(w, Deliver(m, settle), w.next, Working(m, Contract.Receive(m).value, [], Protocol.NO_PROGRESS, true));
    }
  }

  lemma DeliverUpdateParts(w: World, u: Update)
    ensures var w' := AfterDeliverUpdate(w, u);
            && Unrecorded(w, w') && w'.server == w.server && w'.jobs <= w.jobs && w'.held <= w.held && Evolves(w, DeliverUpdate(u), w'.procs)
  {
    hide Evolves, StatusConsumer.Decode, StatusConsumer.Encode, ParamsOf, TakeUpdate, AddDeadUpdate, Persists;
    var v := TakeUpdate(w, u);
    UpdateMoves(w, u);
    UpdateMoves(v, u);
    if AfterDeliverUpdate(w, u) == AddDeadUpdate(v, u) {
      ProcsStopped(w, DeliverUpdate(u), w.next);
    } else {
      ProcsEvolve(w, DeliverUpdate(u), w.next, Consuming(u, [], true));
    }
  }

  lemma StopsParts(w: World, a: Action)
    requires Enabled(w, a) && Stops(a)
    ensures var w' := After(w, a);
            && Unrecorded(w, w') && w'.held == w.held && a.pid in w.procs
            && Evolves(w, a, w'.procs) && EntitlesNone(w.procs, w'.procs)
    ensures !a.ApplyUpdate? ==> After(w, a).server == w.server
  {
    StopIs(w, a);
    hide AfterApply, AfterSettle, AfterDisconnect, AfterCrash, Unrecorded, Evolves, EntitlesNone, After, Enabled;
    var p := w.procs[a.pid];
    if a.ApplyUpdate? {
      ApplyParts(w, a.pid, p, a.db);
    } else if a.SettleUpdate? {
      SettleParts(w, a.pid, p, a.ok);
    } else if a.Disconnect? {
      DisconnectParts(w, a.pid, p);
    } else {
      CrashParts(w, a.pid, p);
    }
    StartEntitlesNone(w, a, After(w, a).procs);
  }

  // What the end of a process or its session comes to.
  lemma StopIs(w: World, a: Action)
    requires Enabled(w, a) && Stops(a)
    ensures a.pid in w.procs && (a.ApplyUpdate? || a.SettleUpdate? ==> w.procs[a.pid].Consuming?)
    ensures a.ApplyUpdate? ==> After(w, a) == AfterApply(w, a.pid, w.procs[a.pid], a.db)
    ensures a.SettleUpdate? ==> After(w, a) == AfterSettle(w, a.pid, w.procs[a.pid], a.ok)
    ensures a.Disconnect? ==> !w.procs[a.pid].Dispatching? && w.procs[a.pid].own && After(w, a) == AfterDisconnect(w, a.pid, w.procs[a.pid])
    ensures a.Crash? ==> After(w, a) == AfterCrash(w, a.pid, w.procs[a.pid])
  {
    hide AfterApply, AfterSettle, AfterDisconnect, AfterCrash, StatusConsumer.Next;
  }

  lemma ApplyParts(w: World, pid: nat, c: Proc, db: Db)
    requires c.Consuming? && pid in w.procs && w.procs[pid] == c
    ensures var w' := AfterApply(w, pid, c, db); Unrecorded(w, w') && w'.held == w.held && Evolves(w, ApplyUpdate(pid, db), w'.procs)
  {
    hide Evolves, StatusConsumer.Reported, StatusConsumer.Applied, ParamsOf;
    ProcsEvolve(w, ApplyUpdate(pid, db), pid, c.(results := c.results + [StatusConsumer.Reported(w.server, ParamsOf(c.update), db)]));
  }

  lemma SettleParts(w: World, pid: nat, c: Proc, ok: bool)
    requires c.Consuming?
    ensures var w' := AfterSettle(w, pid, c, ok);
            Unrecorded(w, w') && w'.held == w.held && w'.server == w.server && Evolves(w, SettleUpdate(pid, ok), w'.procs)
  {
    UpdateMoves(Stop(w, pid), c.update);
    hide Evolves, StatusConsumer.Next, AddUpdate, AddDeadUpdate;
    ProcsStopped(w, SettleUpdate(pid, ok), pid);
  }

  // Moving an update between the queues changes nothing else.
  lemma UpdateMoves(w: World, u: Update)
    ensures forall v | v == TakeUpdate(w, u) || v == AddUpdate(w, u) || v == AddDeadUpdate(w, u) ::
              Unrecorded(w, v) && v.procs == w.procs && v.held == w.held && v.next == w.next && v.jobs == w.jobs && v.dlq == w.dlq && v.server == w.server
  {}

  lemma RedeliveredParts(w: World, p: Proc)
    ensures var w' := Redelivered(w, p);
            && Unrecorded(w, w') && w'.procs == w.procs && w'.server == w.server && w'.next == w.next && w'.held == w.held
            && w.jobs <= w'.jobs && w.dlq <= w'.dlq
            && (p.Working? && p.own ==> p.job in w'.jobs)
  {}

  lemma CrashParts(w: World, pid: nat, p: Proc)
    ensures var w' := AfterCrash(w, pid, p);
            Unrecorded(w, w') && w'.held == w.held && w'.server == w.server && Evolves(w, Crash(pid), w'.procs)
  {
    RedeliveredParts(Stop(w, pid), p);
    hide Evolves, Redelivered;
    ProcsStopped(w, Crash(pid), pid);
  }

  lemma DisconnectParts(w: World, pid: nat, p: Proc)
    requires pid in w.procs && w.procs[pid] == p && !p.Dispatching?
    ensures var w' := AfterDisconnect(w, pid, p);
            Unrecorded(w, w') && w'.held == w.held && w'.server == w.server && Evolves(w, Disconnect(pid), w'.procs)
  {
    RedeliveredParts(w.(procs := w.procs[pid := p.(own := false)]), p);
    ProcsEvolve(w, Disconnect(pid), pid, p.(own := false));
    hide Evolves, Redelivered;
  }

  lemma PassiveParts(w: World, a: Action)
    requires Enabled(w, a) && Passive(a)
    ensures var w' := After(w, a);
            && w'.procs == w.procs && w'.unconfirmed == w.unconfirmed && w'.limit == w.limit && w'.rows == w.rows && w'.next == w.next
            && w'.history == w.history.(recorded := w'.history.recorded)
            && (forall id | id in w.history.recorded ::
                  && id in w'.history.recorded && w'.history.recorded[id] == w.history.recorded[id]
                  && (Unsent(w.outbox, id) ==> Unsent(w'.outbox, id)))
            && (forall id | id in w'.history.recorded && id !in w.history.recorded :: Unsent(w'.outbox, id))
  {
    PassiveIs(w, a);
    PassiveUnsent(w, a);
    hide After, Enabled, EventsOf, Outbox.ClaimAll, Outbox.ResetAll, Outbox.DeleteExpired, Unsent;
  }

  lemma PassiveUnsent(w: World, a: Action)
    requires Enabled(w, a) && Passive(a)
    ensures forall id | Unsent(w.outbox, id) && id in w.history.recorded :: Unsent(After(w, a).outbox, id)
    ensures a.Record? ==> Unsent(After(w, a).outbox, a.id)
  {
    PassiveIs(w, a);
    ReconciledUnsent(w.outbox, w.now, if a.ResetStuck? then a.lease else 0, if a.DeleteSent? then a.retention else 0);
    ClaimedUnsent(w.outbox, if a.Claim? then a.ids else [], w.now);
    hide After, Enabled, EventsOf, Outbox.ClaimAll, Outbox.ResetAll, Outbox.DeleteExpired;
  }

  // What such an action comes to.
  lemma PassiveIs(w: World, a: Action)
    requires Enabled(w, a) && Passive(a)
    ensures After(w, a) ==
              match a
              case Record(id, row, deployment, installation) => AfterRecord(w, id, row, deployment, installation)
              case Claim(ids, reported) => AfterClaim(w, ids, reported)
              case Forget(events) => w.(held := w.held - events)
              case ResetStuck(lease) => w.(outbox := Outbox.ResetAll(w.outbox, w.now, lease))
              case DeleteSent(retention) => w.(outbox := Outbox.DeleteExpired(w.outbox, w.now, retention))
              case Wait(elapsed) => w.(now := w.now + elapsed)
    ensures a.Record? ==> a.id !in w.history.recorded && a.row.state.Pending?
  {
    hide AfterRecord, AfterClaim, Outbox.CanClaim, Outbox.ResetAll, Outbox.DeleteExpired, Source;
  }

  lemma ClaimedUnsent(rows: Outbox.Table, ids: seq<nat>, now: int)
    ensures forall id | Unsent(rows, id) :: Unsent(Outbox.ClaimAll(rows, ids, now), id)
  {}

  lemma ReconciledUnsent(rows: Outbox.Table, now: int, lease: int, retention: int)
    ensures forall id | Unsent(rows, id) ::
              Unsent(Outbox.ResetAll(rows, now, lease), id) && Unsent(Outbox.DeleteExpired(rows, now, retention), id)
  {}

  // What a call of a worker or a dispatcher comes to.
  lemma CallParts(w: World, a: Action)
    requires Enabled(w, a) && Calls(a)
    ensures a.pid in w.procs
    ensures a.Work? ==>
              var p := w.procs[a.pid];
              && p.Working?
              && var ahead := Ahead(p.request, w.limit, p.made, a.env);
                 ahead != [] && CanCall(w, p.request, ahead[0]) && After(w, a) == AfterWork(w, a.pid, p, ahead)
    ensures a.Dispatch? ==>
              var p := w.procs[a.pid];
              && p.Dispatching?
              && var ahead := EventAhead(p.event, p.published, a.answers, a.at, a.delay);
                 ahead != [] && After(w, a) == AfterDispatch(w, a.pid, p.event, ahead)
  {
    hide AfterWork, AfterDispatch, CanCall, Ahead, EventAhead;
  }

  predicate AboutToRecord(p: Proc) { p.Dispatching? && p.published == Some(Acked) }

  lemma DisabledChangesNothing(w: World, a: Action)
    requires !Enabled(w, a)
    ensures After(w, a) == w
  {
    hide Enabled;
  }
}
