/**
 No final word is lost on its way to the server: what reached deploy.status is
 queued, in a consumer's hands or dead-lettered, or the server has stored it.
 */
module Announcements {
  import opened Wrappers
  import Contract
  import opened Faults
  import opened Status
  import Outbox
  import Dispatcher
  import Worker
  import Protocol
  import StatusConsumer
  import opened Pipeline
  import opened PipelineSafety
  import opened Frames
  import opened NoLoss
  import opened Guarantees

  // A delivery of the update that can still be settled.
  predicate Delivering(p: Proc, u: Update) { p.Consuming? && p.own && p.update == u }

  /** The update is queued, dead-lettered or in a consumer's hands. */
  ghost predicate Kept(w: World, u: Update) {
    u in w.updates || u in w.updatesDlq || exists pid | pid in w.procs :: Delivering(w.procs[pid], u)
  }

  ghost predicate Stored(w: World, id: string, status: Status) { id in w.server && w.server[id].status == status }

  // The consumer is about to acknowledge the update.
  predicate Accepted(p: Proc) { p.Consuming? && StatusConsumer.Next(p.results).Acknowledge? }

  // It does so only for what the server has stored.
  ghost predicate AcceptedIsStored(w: World) {
    forall pid | pid in w.procs && Accepted(w.procs[pid]) && w.procs[pid].update.status.Terminal() ::
      Stored(w, w.procs[pid].update.deploymentId, w.procs[pid].update.status)
  }

  ghost predicate Heard(w: World, id: string, status: Status) {
    Stored(w, id, status) || exists u: Update | u.deploymentId == id && u.status == status :: Kept(w, u)
  }

  ghost predicate AllHeard(w: World) {
    forall id, status | (id, status) in w.history.announced && status.Terminal() :: Heard(w, id, status)
  }

  // Nothing of the updates is taken away.
  predicate UpdatesStay(w: World, w': World) {
    && w.updates <= w'.updates && w.updatesDlq <= w'.updatesDlq
    && forall pid | pid in w.procs && w.procs[pid].Consuming? :: pid in w'.procs && w'.procs[pid] == w.procs[pid]
  }

  lemma KeptStays(w: World, w': World, u: Update)
    requires UpdatesStay(w, w') && Kept(w, u)
    ensures Kept(w', u)
  {}

  // ---------- Actions that take no update ----------

  lemma PassiveUpdates(w: World, a: Action)
    requires Enabled(w, a) && Passive(a)
    ensures UpdatesStay(w, After(w, a)) && After(w, a).procs == w.procs
  {
    PassiveIs(w, a);
    hide After, Enabled, Outbox.ClaimAll, Outbox.ResetAll, Outbox.DeleteExpired, EventsOf;
  }

  lemma BeginUpdates(w: World, e: Dispatcher.Event)
    requires w.next !in w.procs
    ensures UpdatesStay(w, AfterBegin(w, e))
  {}

  lemma DeliverUpdates(w: World, m: Contract.Envelope, settle: bool)
    requires w.next !in w.procs
    ensures UpdatesStay(w, AfterDeliver(w, m, settle))
  {
    hide Contract.Receive;
  }

  lemma EnqueuedUpdates(w: World, job: Contract.Envelope, own: bool, e: Worker.Effect)
    ensures var w' := Enqueued(w, job, own, e);
            && w.updates <= w'.updates && w'.updatesDlq == w.updatesDlq && w'.procs == w.procs
            && (e.Announce? && e.publish.Arrived() ==> e.update in w'.updates)
  {
    JobAdded(w, job);
    hide Contract.Publishing, AddJob, AddDead, AddUpdate;
    if e.Republish? && Contract.Publishing(e.request).Ok? {
      JobAdded(w, Contract.Publishing(e.request).value);
    } else if e.Announce? {
      UpdateAddedTo(w, e.update);
    }
  }

  lemma JobAdded(w: World, m: Contract.Envelope)
    ensures forall v | v == AddJob(w, m) || v == AddDead(w, m) ::
              v.updates == w.updates && v.updatesDlq == w.updatesDlq && v.procs == w.procs
  {}

  lemma UpdateAddedTo(w: World, u: Update)
    ensures var v := AddUpdate(w, u); w.updates <= v.updates && u in v.updates && v.updatesDlq == w.updatesDlq && v.procs == w.procs
    ensures var v := AddDeadUpdate(w, u); v.updates == w.updates && u in v.updatesDlq && w.updatesDlq <= v.updatesDlq && v.procs == w.procs
  {}

  lemma WorkUpdates(w: World, pid: nat, p: Proc, ahead: seq<Worker.Effect>)
    requires p.Working? && ahead != [] && pid in w.procs && w.procs[pid] == p
    ensures var w', e := AfterWork(w, pid, p, ahead), ahead[0];
            UpdatesStay(w, w') && (e.Announce? && e.publish.Arrived() ==> e.update in w'.updates)
  {
    hide WorkHistory, Worker.PerformRows, Continued, Enqueued;
    EnqueuedUpdates(Worked(Called(w, p.request, ahead[0]), pid, p, ahead), p.job, p.own, ahead[0]);
  }

  lemma DispatchUpdates(w: World, pid: nat, event: Dispatcher.Event, ahead: seq<Dispatcher.Effect>)
    requires ahead != [] && pid in w.procs && w.procs[pid].Dispatching?
    ensures UpdatesStay(w, AfterDispatch(w, pid, event, ahead))
  {
    DispatchParts(w, pid, event, ahead);
    DispatchQueues(w, pid, event, ahead);
    hide AfterDispatch, Dispatcher.Perform;
  }

  lemma DispatchQueues(w: World, pid: nat, event: Dispatcher.Event, ahead: seq<Dispatcher.Effect>)
    requires ahead != []
    ensures var w' := AfterDispatch(w, pid, event, ahead); w'.updates == w.updates && w'.updatesDlq == w.updatesDlq
  {
    var confirm := if ahead[0].Send? then ahead[0].confirm else Nacked;
    assert forall v: World, m :: AddJob(v, m).updates == v.updates && AddJob(v, m).updatesDlq == v.updatesDlq;
    assert Confirmed(w, event.id, confirm).updates == w.updates && Confirmed(w, event.id, confirm).updatesDlq == w.updatesDlq;
    assert forall v: World :: Dispatched(v, pid, event, ahead).updates == v.updates && Dispatched(v, pid, event, ahead).updatesDlq == v.updatesDlq;
    hide AddJob, Confirmed, Dispatched, Dispatcher.Perform;
  }

  // ---------- Actions on one update ----------

  lemma TakenIsKept(w: World, u: Update, v: Update)
    requires u in w.updates && w.next !in w.procs && Kept(w, v)
    ensures Kept(AfterDeliverUpdate(w, u), v)
  {
    hide StatusConsumer.Decode, StatusConsumer.Encode, ParamsOf, AddDeadUpdate, TakeUpdate;
    var w', x := AfterDeliverUpdate(w, u), TakeUpdate(w, u);
    TakenFrom(w, u);
    UpdateAddedTo(x, u);
    if v == u {
      assert w' == AddDeadUpdate(x, u) || Delivering(w'.procs[w.next], u);
    } else if v !in w.updates && v !in w.updatesDlq {
      var pid :| pid in w.procs && Delivering(w.procs[pid], v);
      assert Delivering(w'.procs[pid], v);
    }
  }

  lemma TakenFrom(w: World, u: Update)
    ensures var x := TakeUpdate(w, u);
            && x.procs == w.procs && x.next == w.next && x.updatesDlq == w.updatesDlq
            && forall v | v in w.updates && v != u :: v in x.updates
  {}

  lemma AppliedIsKept(w: World, pid: nat, c: Proc, db: Db, v: Update)
    requires pid in w.procs && w.procs[pid] == c && c.Consuming? && Kept(w, v)
    ensures Kept(AfterApply(w, pid, c, db), v)
  {
    hide StatusConsumer.Reported, StatusConsumer.Applied, ParamsOf;
    var w' := AfterApply(w, pid, c, db);
    if at :| at in w.procs && Delivering(w.procs[at], v) {
      assert Delivering(w'.procs[at], v);
    }
  }

  /** A delivery is dropped only when it is acknowledged. */
  lemma SettledIsKept(w: World, pid: nat, c: Proc, ok: bool, v: Update)
    requires pid in w.procs && w.procs[pid] == c && c.Consuming? && Kept(w, v)
    ensures Kept(AfterSettle(w, pid, c, ok), v) || (Delivering(c, v) && Accepted(c))
  {
    hide StatusConsumer.Next;
    var w' := AfterSettle(w, pid, c, ok);
    if v in w.updates || v in w.updatesDlq {
      assert v in w'.updates || v in w'.updatesDlq;
    } else {
      var at :| at in w.procs && Delivering(w.procs[at], v);
      assert at == pid || Delivering(w'.procs[at], v);
    }
  }

  lemma LostSessionIsKept(w: World, pid: nat, v: Update, stopped: bool)
    requires pid in w.procs && Kept(w, v) && (!stopped ==> !w.procs[pid].Dispatching?)
    ensures Kept(if stopped then AfterCrash(w, pid, w.procs[pid]) else AfterDisconnect(w, pid, w.procs[pid]), v)
  {
    var p := w.procs[pid];
    var before := if stopped then Stop(w, pid) else w.(procs := w.procs[pid := p.(own := false)]);
    var w' := Redelivered(before, p);
    RedeliveredUpdates(before, p);
    hide Redelivered;
    if v !in w.updates && v !in w.updatesDlq {
      var at :| at in w.procs && Delivering(w.procs[at], v);
      assert at == pid ==> v in w'.updates;
      assert at != pid ==> Delivering(w'.procs[at], v);
    }
  }

  lemma RedeliveredUpdates(w: World, p: Proc)
    ensures var w' := Redelivered(w, p);
            && w'.procs == w.procs && w.updates <= w'.updates && w'.updatesDlq == w.updatesDlq
            && (p.Consuming? && p.own ==> p.update in w'.updates)
  {
    hide AddJob, AddUpdate;
    if p.Working? {
      JobAdded(w, p.job);
    } else if p.Consuming? {
      UpdateAddedTo(w, p.update);
    }
  }

  /** No action takes an update away, but for the acknowledgement of one that was accepted. */
  lemma ActionKeepsUpdate(w: World, a: Action, u: Update)
    requires Sound(w) && Kept(w, u)
    ensures Kept(After(w, a), u)
            || (a.SettleUpdate? && a.pid in w.procs && Delivering(w.procs[a.pid], u) && Accepted(w.procs[a.pid]))
  {
    SoundProcs(w);
    hide Sound, After, Enabled, AfterBegin, AfterDeliver, AfterDeliverUpdate, AfterApply, AfterSettle, AfterDisconnect, AfterCrash,
      AfterWork, AfterDispatch, Ahead, EventAhead, CanCall, Kept, Accepted, UpdatesStay;
    if !Enabled(w, a) {
      DisabledChangesNothing(w, a);
    } else if Passive(a) {
      PassiveUpdates(w, a);
      KeptStays(w, After(w, a), u);
    } else if Stops(a) {
      StopKeepsUpdate(w, a, u);
    } else if Starts(a) {
      StartKeepsUpdate(w, a, u);
    } else {
      CallUpdates(w, a);
      KeptStays(w, After(w, a), u);
    }
  }

  lemma StopKeepsUpdate(w: World, a: Action, u: Update)
    requires Enabled(w, a) && Stops(a) && Kept(w, u)
    ensures Kept(After(w, a), u)
            || (a.SettleUpdate? && a.pid in w.procs && Delivering(w.procs[a.pid], u) && Accepted(w.procs[a.pid]))
  {
    StopIs(w, a);
    hide After, Enabled, AfterApply, AfterSettle, AfterDisconnect, AfterCrash, Kept, Accepted;
    if a.ApplyUpdate? {
      AppliedIsKept(w, a.pid, w.procs[a.pid], a.db, u);
    } else if a.SettleUpdate? {
      SettledIsKept(w, a.pid, w.procs[a.pid], a.ok, u);
    } else {
      LostSessionIsKept(w, a.pid, u, a.Crash?);
    }
  }

  lemma StartKeepsUpdate(w: World, a: Action, u: Update)
    requires Enabled(w, a) && Starts(a) && Kept(w, u) && w.next !in w.procs
    ensures Kept(After(w, a), u)
  {
    StartIs(w, a);
    TakesOnlyQueued(w, a);
    hide After, Enabled, AfterBegin, AfterDeliver, AfterDeliverUpdate, Kept, UpdatesStay;
    if a.Begin? {
      BeginUpdates(w, a.event);
      KeptStays(w, After(w, a), u);
    } else if a.Deliver? {
      DeliverUpdates(w, a.job, a.settle);
      KeptStays(w, After(w, a), u);
    } else {
      TakenIsKept(w, a.update, u);
    }
  }

  lemma TakesOnlyQueued(w: World, a: Action)
    requires Enabled(w, a)
    ensures a.DeliverUpdate? ==> a.update in w.updates
  {}

  lemma CallUpdates(w: World, a: Action)
    requires Enabled(w, a) && Calls(a)
    ensures UpdatesStay(w, After(w, a))
    ensures a.Work? && NextCall(w, a).Announce? && NextCall(w, a).publish.Arrived() ==> NextCall(w, a).update in After(w, a).updates
  {
    CallParts(w, a);
    hide After, AfterWork, AfterDispatch, Ahead, EventAhead, CanCall, UpdatesStay;
    var p := w.procs[a.pid];
    if a.Work? {
      WorkUpdates(w, a.pid, p, Ahead(p.request, w.limit, p.made, a.env));
    } else {
      DispatchUpdates(w, a.pid, p.event, EventAhead(p.event, p.published, a.answers, a.at, a.delay));
    }
  }

  // ---------- What is acknowledged is stored ----------

  lemma ReportedOkIsStored(server: StatusConsumer.Rows, u: Update, db: Db)
    requires StatusConsumer.Reported(server, ParamsOf(u), db).Ok?
    ensures var after := StatusConsumer.Applied(server, ParamsOf(u), db); u.deploymentId in after && after[u.deploymentId].status == u.status
  {}

  lemma StoredStays(w: World, a: Action, id: string, status: Status)
    requires Stored(w, id, status) && status.Terminal()
    ensures Stored(After(w, a), id, status)
  {
    hide After;
    ActionKeepsFinal(w, a, id);
  }

  // An accepted update was accepted before, or is by this action.
  lemma AcceptedWas(w: World, a: Action, pid: nat)
    requires pid in After(w, a).procs && Accepted(After(w, a).procs[pid])
    ensures var p' := After(w, a).procs[pid];
            || (pid in w.procs && Accepted(w.procs[pid]) && w.procs[pid].update == p'.update)
            || (a.ApplyUpdate? && a.pid == pid && Stored(After(w, a), p'.update.deploymentId, p'.update.status))
  {
    hide After, Enabled, AfterWork, AfterDispatch, Ahead, EventAhead, CanCall, StatusConsumer.Next, Stored;
    NothingAppliedYet();
    if !Enabled(w, a) {
      DisabledChangesNothing(w, a);
    } else if Passive(a) {
      PassiveUpdates(w, a);
    } else if Stops(a) {
      StopAccepts(w, a, pid);
    } else if Starts(a) {
      StartAccepts(w, a, pid);
    } else {
      CallParts(w, a);
      var p := w.procs[a.pid];
      if a.Work? {
        WorkParts(w, a.pid, p, Ahead(p.request, w.limit, p.made, a.env));
      } else {
        DispatchParts(w, a.pid, p.event, EventAhead(p.event, p.published, a.answers, a.at, a.delay));
      }
    }
  }

  lemma NothingAppliedYet()
    ensures !StatusConsumer.Next([]).Acknowledge?
  {}

  lemma StartAccepts(w: World, a: Action, pid: nat)
    requires Enabled(w, a) && Starts(a) && pid in After(w, a).procs && Accepted(After(w, a).procs[pid])
    ensures pid in w.procs && w.procs[pid] == After(w, a).procs[pid]
  {
    StartIs(w, a);
    NothingAppliedYet();
    hide After, Enabled, AfterDeliver, AfterDeliverUpdate, StatusConsumer.Next;
    if a.Deliver? {
      DeliveredProcs(w, a.job, a.settle);
    } else if a.DeliverUpdate? {
      TakenProcs(w, a.update);
    }
  }

  lemma DeliveredProcs(w: World, m: Contract.Envelope, settle: bool)
    ensures forall x | x in AfterDeliver(w, m, settle).procs ::
              AfterDeliver(w, m, settle).procs[x].Working? || (x in w.procs && w.procs[x] == AfterDeliver(w, m, settle).procs[x])
  {
    hide Contract.Receive, AddDead;
    AddedParts(w.(jobs := w.jobs - multiset{m}), m);
  }

  lemma TakenProcs(w: World, u: Update)
    ensures forall x | x in AfterDeliverUpdate(w, u).procs ::
              AfterDeliverUpdate(w, u).procs[x] == Consuming(u, [], true)
              || (x in w.procs && w.procs[x] == AfterDeliverUpdate(w, u).procs[x])
  {
    hide StatusConsumer.Decode, StatusConsumer.Encode, ParamsOf, TakeUpdate, AddDeadUpdate;
    UpdateMoves(w, u);
    UpdateMoves(TakeUpdate(w, u), u);
  }

  lemma StopAccepts(w: World, a: Action, pid: nat)
    requires Enabled(w, a) && Stops(a) && pid in After(w, a).procs && Accepted(After(w, a).procs[pid])
    ensures var p' := After(w, a).procs[pid];
            || (pid in w.procs && Accepted(w.procs[pid]) && w.procs[pid].update == p'.update)
            || (a.ApplyUpdate? && a.pid == pid && Stored(After(w, a), p'.update.deploymentId, p'.update.status))
  {
    StopIs(w, a);
    hide After, Enabled, Stored, AfterApply, AfterSettle, AfterDisconnect, AfterCrash, StatusConsumer.Next;
    if a.ApplyUpdate? {
      ApplyAccepts(w, a.pid, w.procs[a.pid], a.db, pid);
    } else if a.SettleUpdate? {
      SettledProcs(w, a.pid, w.procs[a.pid], a.ok);
    } else if a.Crash? {
      CrashedProcs(w, a.pid, w.procs[a.pid]);
    } else {
      DisconnectedProcs(w, a.pid, w.procs[a.pid]);
    }
  }

  lemma SettledProcs(w: World, pid: nat, c: Proc, ok: bool)
    requires c.Consuming?
    ensures AfterSettle(w, pid, c, ok).procs == w.procs - {pid}
  {
    UpdateMoves(Stop(w, pid), c.update);
    hide StatusConsumer.Next, AddUpdate, AddDeadUpdate;
  }

  lemma CrashedProcs(w: World, pid: nat, p: Proc)
    ensures AfterCrash(w, pid, p).procs == w.procs - {pid}
  {
    RedeliveredParts(Stop(w, pid), p);
    hide Redelivered;
  }

  lemma DisconnectedProcs(w: World, pid: nat, p: Proc)
    requires !p.Dispatching?
    ensures AfterDisconnect(w, pid, p).procs == w.procs[pid := p.(own := false)]
  {
    RedeliveredParts(w.(procs := w.procs[pid := p.(own := false)]), p);
    hide Redelivered;
  }

  lemma ApplyAccepts(w: World, at: nat, c: Proc, db: Db, pid: nat)
    requires c.Consuming? && at in w.procs && w.procs[at] == c
    requires pid in AfterApply(w, at, c, db).procs && Accepted(AfterApply(w, at, c, db).procs[pid])
    ensures var w' := AfterApply(w, at, c, db);
            || (pid in w.procs && Accepted(w.procs[pid]) && w.procs[pid].update == w'.procs[pid].update)
            || (at == pid && Stored(w', w'.procs[pid].update.deploymentId, w'.procs[pid].update.status))
  {
    var r := StatusConsumer.Reported(w.server, ParamsOf(c.update), db);
    LastDecides(c.results, r);
    hide StatusConsumer.Next, StatusConsumer.Reported, StatusConsumer.Applied, ParamsOf;
    if r.Ok? {
      ReportedOkIsStored(w.server, c.update, db);
    }
  }

  lemma LastDecides(results: seq<StatusConsumer.ApplyResult>, r: StatusConsumer.ApplyResult)
    ensures StatusConsumer.Next(results + [r]).Acknowledge? <==> r.Ok?
  {}

  lemma AcceptedStaysStored(w: World, a: Action)
    requires AcceptedIsStored(w)
    ensures AcceptedIsStored(After(w, a))
  {
    hide After, StatusConsumer.Next, Stored;
    var w' := After(w, a);
    forall pid | pid in w'.procs && Accepted(w'.procs[pid]) && w'.procs[pid].update.status.Terminal()
      ensures Stored(w', w'.procs[pid].update.deploymentId, w'.procs[pid].update.status)
    {
      AcceptedWas(w, a, pid);
      if pid in w.procs && Accepted(w.procs[pid]) && w.procs[pid].update == w'.procs[pid].update {
        StoredStays(w, a, w'.procs[pid].update.deploymentId, w'.procs[pid].update.status);
      }
    }
  }

  // ---------- Runs ----------

  lemma HeardStays(w: World, a: Action, id: string, status: Status)
    requires Sound(w) && AcceptedIsStored(w) && Heard(w, id, status) && status.Terminal()
    ensures Heard(After(w, a), id, status)
  {
    hide Sound, After, Kept, Stored, Accepted;
    if Stored(w, id, status) {
      StoredStays(w, a, id, status);
    } else {
      var u: Update :| u.deploymentId == id && u.status == status && Kept(w, u);
      ActionKeepsUpdate(w, a, u);
      if !Kept(After(w, a), u) {
        StoredStays(w, a, id, status);
      }
    }
  }

  // A new announcement is in the queue.
  lemma NewlyAnnounced(w: World, a: Action, id: string, status: Status)
    requires Sound(w) && (id, status) in After(w, a).history.announced && (id, status) !in w.history.announced
    ensures Heard(After(w, a), id, status)
  {
    hide Sound, After, Enabled, Does, Ahead, CanCall;
    ActionNotes(w, a, Announce(id, status));
    AnnouncedIsQueued(w, a, id, status);
  }

  lemma AnnouncedIsQueued(w: World, a: Action, id: string, status: Status)
    requires Sound(w) && Does(w, a, Announce(id, status))
    ensures Heard(After(w, a), id, status)
  {
    hide Sound, After, Ahead, CanCall, Protocol.InOrder, Protocol.Advance, Protocol.Disciplined, Protocol.Walk, Contract.Receive, Achieved,
      Moved, Genuine, UpdatesStay;
    var p := w.procs[a.pid];
    ProcFound(w, a.pid);
    ProcInOrder(w.limit, w.history, w.rows.Keys, p, a.env);
    OrderedCall(p.request, w.limit, p.progress, NextCall(w, a));
    CallUpdates(w, a);
    assert Kept(After(w, a), NextCall(w, a).update);
  }

  /**
   In every run each final word that reached deploy.status is still on its way
   to the server, dead-lettered, or stored there.
   */
  lemma {:induction false} NoWordIsLost(limit: int, unconfirmed: bool, actions: seq<Action>)
    ensures AllHeard(Run(Start(limit, unconfirmed), actions)) && AcceptedIsStored(Run(Start(limit, unconfirmed), actions))
  {
    hide Sound, After, Heard, AcceptedIsStored;
    if actions == [] {
      NothingAnnounced(limit, unconfirmed);
    } else {
      var shorter, a := actions[..|actions| - 1], actions[|actions| - 1];
      var w := Run(Start(limit, unconfirmed), shorter);
      NoWordIsLost(limit, unconfirmed, shorter);
      RunIsSound(limit, unconfirmed, shorter);
      AcceptedStaysStored(w, a);
      forall id, status | (id, status) in After(w, a).history.announced && status.Terminal() ensures Heard(After(w, a), id, status) {
        if (id, status) in w.history.announced {
          HeardStays(w, a, id, status);
        } else {
          NewlyAnnounced(w, a, id, status);
        }
      }
    }
  }

  lemma NothingAnnounced(limit: int, unconfirmed: bool)
    ensures AllHeard(Start(limit, unconfirmed)) && AcceptedIsStored(Start(limit, unconfirmed))
  {}
}
