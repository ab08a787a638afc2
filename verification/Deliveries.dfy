/**
 The broker's side of the jobs queue: a message leaves it only by an ack that
 arrives, and no worker acks one before its job is finished or passed on.
 */
module Deliveries {
  import opened Wrappers
  import Contract
  import opened Faults
  import Outbox
  import Dispatcher
  import Worker
  import Protocol
  import StatusConsumer
  import opened Pipeline
  import opened PipelineSafety
  import opened Frames
  import opened NoLoss
  import Status
  import opened Guarantees

  // A delivery of the message that can still be settled.
  predicate Unsettled(p: Proc, m: Contract.Envelope) { p.Working? && p.own && p.job == m }

  /** The message is queued, dead-lettered, or delivered and not settled. */
  ghost predicate AtBroker(w: World, m: Contract.Envelope) {
    m in w.jobs || m in w.dlq || exists pid | pid in w.procs :: Unsettled(w.procs[pid], m)
  }

  /** Its ack arrives, from a worker that has finished the job or published its retry. */
  ghost predicate Acknowledged(w: World, a: Action, m: Contract.Envelope) {
    && a.Work? && Enabled(w, a) && Unsettled(w.procs[a.pid], m)
    && NextCall(w, a) == Worker.Ack(true) && w.procs[a.pid].progress.secured
  }

  lemma StaysAtBroker(w: World, w': World, m: Contract.Envelope)
    requires AtBroker(w, m) && w.jobs <= w'.jobs && w.dlq <= w'.dlq
    requires forall pid | pid in w.procs && Unsettled(w.procs[pid], m) :: pid in w'.procs && Unsettled(w'.procs[pid], m)
    ensures AtBroker(w', m)
  {}

  lemma DeliveredStays(w: World, taken: Contract.Envelope, settle: bool, m: Contract.Envelope)
    requires AtBroker(w, m) && taken in w.jobs && w.next !in w.procs && Contract.Receive(taken).Ok?
    ensures AtBroker(AfterDeliver(w, taken, settle), m)
  {
    hide Contract.Receive;
    var w' := AfterDeliver(w, taken, settle);
    if m == taken {
      assert Unsettled(w'.procs[w.next], m);
    } else if m !in w.jobs && m !in w.dlq {
      var pid :| pid in w.procs && Unsettled(w.procs[pid], m);
      assert Unsettled(w'.procs[pid], m);
    }
  }

  lemma LostSessionReturns(w: World, pid: nat, m: Contract.Envelope, stopped: bool)
    requires AtBroker(w, m) && pid in w.procs && (!stopped ==> !w.procs[pid].Dispatching?)
    ensures AtBroker(if stopped then AfterCrash(w, pid, w.procs[pid]) else AfterDisconnect(w, pid, w.procs[pid]), m)
  {
    var p := w.procs[pid];
    var w' := if stopped then AfterCrash(w, pid, p) else AfterDisconnect(w, pid, p);
    RedeliveredParts(Stop(w, pid), p);
    RedeliveredParts(if stopped then w else w.(procs := w.procs[pid := p.(own := false)]), p);
    hide Redelivered;
    if m !in w.jobs && m !in w.dlq {
      var at :| at in w.procs && Unsettled(w.procs[at], m);
      assert at == pid ==> m in w'.jobs;
      assert at != pid ==> Unsettled(w'.procs[at], m);
    }
  }

  // What a worker's call leaves of its own delivery.
  lemma OwnDelivery(w: World, pid: nat, p: Proc, ahead: seq<Worker.Effect>)
    requires p.Working? && p.own && ahead != [] && |ahead| == 1
    requires ahead[0].Ack? || ahead[0].Discard? || ahead[0].Requeue?
    ensures var w' := AfterWork(w, pid, p, ahead); ahead[0] == Worker.Ack(true) || p.job in w'.jobs || p.job in w'.dlq
  {
    hide Called, Worked;
  }

  /**
   Where a settlement leaves the message: an ack that arrives removes it, a nack
   without requeue that arrives dead-letters it, and everything else returns it;
   a delivery of a lost session is not settled at all.
   */
  lemma SettlementExactly(w: World, a: Action)
    requires Enabled(w, a) && a.Work? && (NextCall(w, a).Ack? || NextCall(w, a).Discard? || NextCall(w, a).Requeue?)
    ensures var p, e, w' := w.procs[a.pid], NextCall(w, a), After(w, a);
            if !p.own || e == Worker.Ack(true) then w'.jobs == w.jobs && w'.dlq == w.dlq
            else if e == Worker.Discard(true) then w'.jobs == w.jobs && w'.dlq == w.dlq + multiset{p.job}
            else w'.jobs == w.jobs + multiset{p.job} && w'.dlq == w.dlq
  {
    hide After, Ahead, CanCall, Worker.PerformRows, WorkHistory, Moved, Contract.Publishing, Called, Worked;
    CallParts(w, a);
    var p := w.procs[a.pid];
    var ahead := Ahead(p.request, w.limit, p.made, a.env);
    CalledParts(w, p.request, ahead[0]);
    WorkedParts(Called(w, p.request, ahead[0]), a.pid, p, ahead);
  }

  // A delivery ends with its settlement.
  lemma EndsSettled(limit: int, p: Proc, ahead: seq<Worker.Effect>)
    requires p.Working? && ahead != [] && CallInOrder(limit, p, ahead) && |ahead| == 1
    ensures ahead[0].Ack? || ahead[0].Discard? || ahead[0].Requeue?
    ensures ahead[0].Ack? ==> p.progress.secured
  {
    hide Contract.Receive, Contract.Valid, Contract.Retry, Worker.LimitReached, Protocol.Announceable;
    assert ahead[1..] == [];
  }

  lemma WorkStaysAtBroker(w: World, a: Action, m: Contract.Envelope)
    requires Sound(w) && AtBroker(w, m) && Enabled(w, a) && a.Work?
    ensures AtBroker(After(w, a), m) || Acknowledged(w, a, m)
  {
    hide Sound, After, AfterWork, Ahead, CanCall, WorkHistory, Worker.PerformRows, Moved, Contract.Publishing, Contract.Receive,
      CallInOrder, Achieved, Genuine, Protocol.Walk;
    CallParts(w, a);
    var p := w.procs[a.pid];
    var ahead := Ahead(p.request, w.limit, p.made, a.env);
    WorkParts(w, a.pid, p, ahead);
    ProcFound(w, a.pid);
    ProcInOrder(w.limit, w.history, w.rows.Keys, p, a.env);
    if |ahead| > 1 || !Unsettled(p, m) {
      StaysAtBroker(w, After(w, a), m);
    } else {
      EndsSettled(w.limit, p, ahead);
      OwnDelivery(w, a.pid, p, ahead);
    }
  }

  lemma OthersStayAtBroker(w: World, a: Action, m: Contract.Envelope)
    requires AtBroker(w, m) && Enabled(w, a) && (Passive(a) || a.Dispatch? || a.Begin?)
    requires a.Begin? ==> w.next !in w.procs
    ensures AtBroker(After(w, a), m)
  {
    hide After, Enabled, AfterDispatch, EventAhead, Dispatcher.Perform, Outbox.ClaimAll, Outbox.ResetAll, Outbox.DeleteExpired, EventsOf;
    if Passive(a) {
      PassiveIs(w, a);
    } else if a.Begin? {
      StartIs(w, a);
    } else {
      CallParts(w, a);
      var p := w.procs[a.pid];
      DispatchParts(w, a.pid, p.event, EventAhead(p.event, p.published, a.answers, a.at, a.delay));
    }
    StaysAtBroker(w, After(w, a), m);
  }

  lemma ConsumersStayApart(w: World, a: Action, m: Contract.Envelope)
    requires AtBroker(w, m) && Enabled(w, a) && (a.DeliverUpdate? || a.ApplyUpdate? || a.SettleUpdate?) && w.next !in w.procs
    ensures AtBroker(After(w, a), m)
  {
    hide After, Enabled, AfterDeliverUpdate, AfterApply, AfterSettle;
    if a.DeliverUpdate? {
      StartIs(w, a);
      TakenApart(w, a.update);
    } else {
      StopIs(w, a);
      AppliedApart(w, a.pid, w.procs[a.pid], if a.ApplyUpdate? then a.db else Fine, a.SettleUpdate? && a.ok);
    }
    StaysAtBroker(w, After(w, a), m);
  }

  // The deliveries of jobs are the same.
  predicate SameDeliveries(w: World, w': World) {
    && w'.jobs == w.jobs && w'.dlq == w.dlq
    && forall pid | pid in w.procs && w.procs[pid].Working? :: pid in w'.procs && w'.procs[pid] == w.procs[pid]
  }

  lemma TakenApart(w: World, u: Status.Update)
    requires w.next !in w.procs
    ensures SameDeliveries(w, AfterDeliverUpdate(w, u))
  {
    hide StatusConsumer.Decode, StatusConsumer.Encode, ParamsOf, TakeUpdate, AddDeadUpdate;
    var v := TakeUpdate(w, u);
    UpdateMoves(w, u);
    UpdateMoves(v, u);
    if AfterDeliverUpdate(w, u) == Spawn(v, Consuming(u, [], true)) {
      assert SameDeliveries(w, Spawn(v, Consuming(u, [], true)));
    }
  }

  lemma AppliedApart(w: World, pid: nat, c: Proc, db: Db, ok: bool)
    requires pid in w.procs && w.procs[pid] == c && c.Consuming?
    ensures SameDeliveries(w, AfterApply(w, pid, c, db)) && SameDeliveries(w, AfterSettle(w, pid, c, ok))
  {
    UpdateMoves(Stop(w, pid), c.update);
    hide StatusConsumer.Reported, StatusConsumer.Applied, StatusConsumer.Next, ParamsOf, AddUpdate, AddDeadUpdate;
  }

  /** No action takes a message from the broker, but for an ack that arrives when the job is finished or passed on. */
  lemma ActionKeepsMessage(w: World, a: Action, m: Contract.Envelope)
    requires Sound(w) && AtBroker(w, m)
    ensures AtBroker(After(w, a), m) || Acknowledged(w, a, m)
  {
    SoundProcs(w);
    hide Sound, After, Enabled, AtBroker, Acknowledged, AfterDeliver, AfterCrash, AfterDisconnect, Contract.Receive;
    if !Enabled(w, a) {
      DisabledChangesNothing(w, a);
    } else if a.Work? {
      WorkStaysAtBroker(w, a, m);
    } else if Passive(a) || a.Dispatch? || a.Begin? {
      OthersStayAtBroker(w, a, m);
    } else if a.Deliver? {
      StartIs(w, a);
      DeliveredStays(w, a.job, a.settle, m);
    } else if a.Crash? || a.Disconnect? {
      StopIs(w, a);
      LostSessionReturns(w, a.pid, m, a.Crash?);
    } else {
      ConsumersStayApart(w, a, m);
    }
  }

  /** At some point of the run the message was acknowledged. */
  ghost predicate WasAcknowledged(w: World, actions: seq<Action>, m: Contract.Envelope) {
    exists k | 0 <= k < |actions| :: Acknowledged(Run(w, actions[..k]), actions[k], m)
  }

  /** In every run a message stays at the broker until such an ack. */
  lemma {:induction false} MessagesStay(w: World, actions: seq<Action>, m: Contract.Envelope)
    requires Sound(w) && AtBroker(w, m)
    ensures AtBroker(Run(w, actions), m) || WasAcknowledged(w, actions, m)
  {
    hide Sound, After, AtBroker, Acknowledged;
    if actions != [] {
      var n := |actions| - 1;
      var shorter := actions[..n];
      MessagesStay(w, shorter, m);
      if AtBroker(Run(w, shorter), m) {
        LaterIsSound(w, shorter);
        ActionKeepsMessage(Run(w, shorter), actions[n], m);
        assert Acknowledged(Run(w, shorter), actions[n], m) ==> WasAcknowledged(w, actions, m);
      } else {
        var k :| 0 <= k < n && Acknowledged(Run(w, shorter[..k]), shorter[k], m);
        assert shorter[..k] == actions[..k] && shorter[k] == actions[k];
      }
    }
  }
}
