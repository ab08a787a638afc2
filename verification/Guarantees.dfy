/**
 What every run of the pipeline guarantees: the server's verdicts are earned,
 the queues carry only accepted builds, sent rows were confirmed, final
 statuses and spent outbox rows do not change, and a finished deployment is
 not built again.
 */
module Guarantees {
  import opened Wrappers
  import Contract
  import opened Faults
  import opened Status
  import Outbox
  import Dispatcher
  import Worker
  import Protocol
  import StatusConsumer
  import Credentials
  import Redelivery
  import opened Pipeline
  import opened PipelineSafety
  import opened Frames
  import opened NoLoss

  // ---------- Deeds and their traces ----------

  datatype Deed =
    | Insert(id: string)     // a first attempt with a credential inserted the worker row
    | Finish(id: string)     // a worker marked its row finished
    | GiveUp(id: string)     // a worker failed the job at the retry limit
    | Announce(id: string, status: Status)  // a worker's update with this status reached deploy.status
    | Confirm(event: nat)    // the broker acked a publish of the event

  predicate Noted(h: History, d: Deed) {
    match d
    case Insert(id) => id in h.inserted
    case Finish(id) => id in h.finished
    case GiveUp(id) => id in h.gaveUp
    case Announce(id, status) => (id, status) in h.announced
    case Confirm(event) => event in h.confirmed
  }

  /** This action in this state is the deed. */
  ghost predicate Does(w: World, a: Action, d: Deed) {
    Enabled(w, a) &&
    match d
    case Insert(id) =>
      a.Work? && id in After(w, a).rows && CallIs(w, a, id)
      && NextCall(w, a).Insert? && w.procs[a.pid].request.retryCount == 0 && w.procs[a.pid].progress.granted
    case Finish(id) =>
      a.Work? && id in After(w, a).rows && After(w, a).rows[id].status.Success? && CallIs(w, a, id) && NextCall(w, a).MarkFinished?
    case GiveUp(id) =>
      a.Work? && CallIs(w, a, id) && NextCall(w, a).GaveUp? && Worker.LimitReached(w.procs[a.pid].request, w.limit)
    case Announce(id, status) =>
      a.Work? && CallIs(w, a, id) && NextCall(w, a).Announce?
      && NextCall(w, a).publish.Arrived() && NextCall(w, a).update.status == status
    case Confirm(event) =>
      a.Dispatch? && w.procs[a.pid].event.id == event && event in w.history.recorded
      && PublishesAcked(w, a, a.pid) && Dispatcher.Message(w.history.recorded[event]) == Some(Published(w, a))
  }

  predicate CallIs(w: World, a: Action, id: string)
    requires a.Work? && a.pid in w.procs && w.procs[a.pid].Working?
  {
    w.procs[a.pid].request.deploymentId == id
  }

  // The call that a worker makes.
  function NextCall(w: World, a: Action): Worker.Effect
    requires a.Work? && a.pid in w.procs && w.procs[a.pid].Working?
    requires Ahead(w.procs[a.pid].request, w.limit, w.procs[a.pid].made, a.env) != []
  {
    Ahead(w.procs[a.pid].request, w.limit, w.procs[a.pid].made, a.env)[0]
  }

  // The message that a dispatcher publishes.
  function Published(w: World, a: Action): Contract.Envelope
    requires a.Dispatch? && PublishesAcked(w, a, a.pid)
  {
    EventAhead(w.procs[a.pid].event, w.procs[a.pid].published, a.answers, a.at, a.delay)[0].message
  }

  lemma CallNotes(w: World, req: Contract.BuildRequest, e: Worker.Effect, d: Deed)
    requires Noted(WorkHistory(w.history, w.rows, req, e), d) && !Noted(w.history, d)
    ensures match d
            case Insert(id) => e.Insert? && req.deploymentId == id && id in Worker.PerformRows(w.rows, req, e)
            case Finish(id) =>
              e.MarkFinished? && req.deploymentId == id && id in Worker.PerformRows(w.rows, req, e)
              && Worker.PerformRows(w.rows, req, e)[id].status.Success?
            case GiveUp(id) => e.GaveUp? && req.deploymentId == id
            case Announce(id, status) =>
              e.Announce? && e.publish.Arrived() && e.update.deploymentId == id && e.update.status == status
            case Confirm(_) => false
  {}

  lemma OrderedCall(req: Contract.BuildRequest, limit: int, c: Protocol.Progress, e: Worker.Effect)
    requires Protocol.InOrder(req, limit, c, e)
    ensures e.Insert? ==> c.granted && req.retryCount == 0
    ensures e.GaveUp? ==> Worker.LimitReached(req, limit)
    ensures e.Announce? ==> e.update.deploymentId == req.deploymentId && (e.update.status.Success? ==> c.finished)
                            && (e.update.status.Canceled? ==> c.gaveUp)
  {
    hide Worker.LimitReached, Contract.Retry, Contract.Valid;
  }

  lemma WorkNotes(w: World, a: Action, d: Deed)
    requires Sound(w) && Enabled(w, a) && a.Work? && Noted(After(w, a).history, d) && !Noted(w.history, d)
    ensures Does(w, a, d)
  {
    hide Sound, ProcOk, After, Ahead, CanCall, Achieved, Protocol.InOrder, Protocol.Advance, Protocol.Disciplined, Contract.Receive, WorkHistory,
      Worker.PerformRows, AfterWork, Moved, Contract.Publishing, Noted, Worker.LimitReached;
    CallParts(w, a);
    var p := w.procs[a.pid];
    WorkParts(w, a.pid, p, Ahead(p.request, w.limit, p.made, a.env));
    ProcFound(w, a.pid);
    ProcInOrder(w.limit, w.history, w.rows.Keys, p, a.env);
    OrderedCall(p.request, w.limit, p.progress, NextCall(w, a));
    CallNotes(w, p.request, NextCall(w, a), d);
  }

  lemma DispatchNotes(w: World, a: Action, d: Deed)
    requires Sound(w) && Enabled(w, a) && a.Dispatch? && Noted(After(w, a).history, d) && !Noted(w.history, d)
    ensures Does(w, a, d)
  {
    hide Sound, After, EventAhead, EventInOrder, AfterDispatch, Dispatcher.Message, Dispatcher.Perform;
    CallParts(w, a);
    var p := w.procs[a.pid];
    DispatchParts(w, a.pid, p.event, EventAhead(p.event, p.published, a.answers, a.at, a.delay));
    ProcFound(w, a.pid);
    NextEffect(w.history, p.event, p.published, a.answers, a.at, a.delay);
  }

  /** History notes nothing that no action did. */
  lemma ActionNotes(w: World, a: Action, d: Deed)
    requires Sound(w) && Noted(After(w, a).history, d) && !Noted(w.history, d)
    ensures Does(w, a, d)
  {
    hide Sound, After, Enabled, Does, Unrecorded, Evolves, EntitlesNone;
    if !Enabled(w, a) {
      DisabledChangesNothing(w, a);
    } else if Passive(a) {
      PassiveParts(w, a);
    } else if Stops(a) {
      StopsParts(w, a);
      SameNotes(w, After(w, a), d);
    } else if Starts(a) {
      StartsParts(w, a);
      SameNotes(w, After(w, a), d);
    } else if a.Work? {
      WorkNotes(w, a, d);
    } else {
      DispatchNotes(w, a, d);
    }
  }

  lemma SameNotes(w: World, w': World, d: Deed)
    requires Unrecorded(w, w')
    ensures Noted(w'.history, d) <==> Noted(w.history, d)
  {}

  /** At some point of the run the deed was done. */
  ghost predicate Happened(start: World, actions: seq<Action>, d: Deed) {
    exists k | 0 <= k < |actions| :: Does(Run(start, actions[..k]), actions[k], d)
  }

  lemma {:induction false} NotedHappened(limit: int, unconfirmed: bool, actions: seq<Action>, d: Deed)
    requires Noted(Run(Start(limit, unconfirmed), actions).history, d)
    ensures Happened(Start(limit, unconfirmed), actions, d)
  {
    hide After, Does, Noted, Sound;
    var start := Start(limit, unconfirmed);
    if actions == [] {
      NothingNoted(limit, unconfirmed, d);
    } else {
      var shorter, a := actions[..|actions| - 1], actions[|actions| - 1];
      RunIsSound(limit, unconfirmed, shorter);
      if Noted(Run(start, shorter).history, d) {
        NotedHappened(limit, unconfirmed, shorter, d);
        var k :| 0 <= k < |shorter| && Does(Run(start, shorter[..k]), shorter[k], d);
        assert actions[..k] == shorter[..k] && actions[k] == shorter[k];
      } else {
        ActionNotes(Run(start, shorter), a, d);
        assert Does(Run(start, actions[..|actions| - 1]), actions[|actions| - 1], d);
      }
    }
  }

  lemma NothingNoted(limit: int, unconfirmed: bool, d: Deed)
    ensures !Noted(Start(limit, unconfirmed).history, d)
  {}

  // ---------- Whatever the run ----------

  lemma SoundServer(w: World, id: string)
    requires Sound(w) && id in w.server
    ensures Truthful(w.history, id, w.server[id].status)
  {
    hide ProcsOk, JobsOk, UpdatesOk, OutboxOk, HeldOk, WorkerRowsOk;
  }

  /** First the one deed, later in the run the other. */
  ghost predicate InThatOrder(start: World, actions: seq<Action>, first: Deed, second: Deed) {
    exists k | 0 <= k < |actions| :: Does(Run(start, actions[..k]), actions[k], second) && Happened(start, actions[..k], first)
  }

  // What a final word needs to have happened before it.
  function Reason(id: string, status: Status): Deed { if status.Success? then Finish(id) else GiveUp(id) }

  lemma AnnouncerAchieved(w: World, a: Action, id: string, status: Status)
    requires Sound(w) && Does(w, a, Announce(id, status)) && (status.Success? || status.Canceled?)
    ensures Noted(w.history, Reason(id, status))
  {
    hide Sound, CanCall, Ahead, Protocol.InOrder, Protocol.Advance, Protocol.Disciplined, Protocol.Walk, Contract.Receive, After, Genuine, Moved;
    var p := w.procs[a.pid];
    ProcFound(w, a.pid);
    ProcInOrder(w.limit, w.history, w.rows.Keys, p, a.env);
    OrderedCall(p.request, w.limit, p.progress, NextCall(w, a));
  }

  /** A final word reaches deploy.status only after what it reports. */
  lemma AnnouncedInOrder(limit: int, unconfirmed: bool, actions: seq<Action>, id: string, status: Status)
    requires Noted(Run(Start(limit, unconfirmed), actions).history, Announce(id, status)) && (status.Success? || status.Canceled?)
    ensures InThatOrder(Start(limit, unconfirmed), actions, Reason(id, status), Announce(id, status))
  {
    hide Run, Does, Noted, Sound, Reason;
    var start := Start(limit, unconfirmed);
    NotedHappened(limit, unconfirmed, actions, Announce(id, status));
    var k :| 0 <= k < |actions| && Does(Run(start, actions[..k]), actions[k], Announce(id, status));
    RunIsSound(limit, unconfirmed, actions[..k]);
    AnnouncerAchieved(Run(start, actions[..k]), actions[k], id, status);
    NotedHappened(limit, unconfirmed, actions[..k], Reason(id, status));
  }

  /**
   The server says success only after a worker marked that deployment's row
   finished and then published success, canceled only after a worker failed it
   at the retry limit and then published canceled, and never failed.
   */
  lemma ServerTellsTheTruth(limit: int, unconfirmed: bool, actions: seq<Action>, id: string)
    requires id in Run(Start(limit, unconfirmed), actions).server
    ensures var start := Start(limit, unconfirmed);
            var status := Run(start, actions).server[id].status;
            && !status.Failed?
            && (status.Success? ==> InThatOrder(start, actions, Finish(id), Announce(id, Success)))
            && (status.Canceled? ==> InThatOrder(start, actions, GiveUp(id), Announce(id, Canceled)))
  {
    hide Run, Sound, InThatOrder;
    RunIsSound(limit, unconfirmed, actions);
    var w := Run(Start(limit, unconfirmed), actions);
    SoundServer(w, id);
    if w.server[id].status.Success? || w.server[id].status.Canceled? {
      AnnouncedInOrder(limit, unconfirmed, actions, id, w.server[id].status);
    }
  }

  lemma SoundOutbox(w: World, id: nat)
    requires Sound(w) && id in w.history.recorded && !Unsent(w.outbox, id)
    ensures id in w.history.confirmed
  {
    hide ProcsOk, JobsOk, UpdatesOk, ServerOk, HeldOk, WorkerRowsOk, Dispatcher.Message;
    if id in w.outbox {
      assert RowOk(w.history, id, w.outbox[id]);
    }
  }

  /** A row is sent, or gone after being sent, only if the broker acked a publish of its message. */
  lemma SentIsConfirmed(limit: int, unconfirmed: bool, actions: seq<Action>, id: nat)
    requires var w := Run(Start(limit, unconfirmed), actions); id in w.history.recorded && !Unsent(w.outbox, id)
    ensures Happened(Start(limit, unconfirmed), actions, Confirm(id))
  {
    hide Run, Sound, Happened;
    RunIsSound(limit, unconfirmed, actions);
    SoundOutbox(Run(Start(limit, unconfirmed), actions), id);
    NotedHappened(limit, unconfirmed, actions, Confirm(id));
  }

  lemma SoundDone(w: World, job: Contract.BuildRequest)
    requires Sound(w) && job in w.history.done
    ensures job.deploymentId in w.history.finished && job.deploymentId in w.history.inserted
  {
    hide ProcsOk, JobsOk, UpdatesOk, ServerOk, HeldOk, OutboxOk;
  }

  /** A job completes only after its row was inserted by a first attempt that held a credential, and then finished. */
  lemma CompletedWasInserted(limit: int, unconfirmed: bool, actions: seq<Action>, job: Contract.BuildRequest)
    requires job in Run(Start(limit, unconfirmed), actions).history.done
    ensures Happened(Start(limit, unconfirmed), actions, Insert(job.deploymentId))
    ensures Happened(Start(limit, unconfirmed), actions, Finish(job.deploymentId))
  {
    hide Run, Sound, Happened;
    RunIsSound(limit, unconfirmed, actions);
    SoundDone(Run(Start(limit, unconfirmed), actions), job);
    NotedHappened(limit, unconfirmed, actions, Insert(job.deploymentId));
    NotedHappened(limit, unconfirmed, actions, Finish(job.deploymentId));
  }

  /**
   Every message on the queue or its dead letters is well-formed, and repeats
   an accepted outbox payload but for the retry count.
   */
  lemma QueuesAreGenuine(limit: int, unconfirmed: bool, actions: seq<Action>, m: Contract.Envelope)
    requires var w := Run(Start(limit, unconfirmed), actions); m in w.jobs || m in w.dlq
    ensures var h := Run(Start(limit, unconfirmed), actions).history;
            && Contract.Receive(m).Ok? && Contract.Publishing(Contract.Receive(m).value) == Ok(m)
            && exists id | id in h.recorded ::
                 Source(h.recorded[id]).Some?
                 && Contract.JobOf(Source(h.recorded[id]).value) == Contract.JobOf(Contract.Receive(m).value)
  {
    hide Run, Sound, Contract.Receive, Contract.Publishing, Source, Contract.JobOf;
    RunIsSound(limit, unconfirmed, actions);
    SoundQueues(Run(Start(limit, unconfirmed), actions), m);
  }

  lemma SoundQueues(w: World, m: Contract.Envelope)
    requires Sound(w) && (m in w.jobs || m in w.dlq)
    ensures Genuine(w.history, m)
  {
    hide ProcsOk, UpdatesOk, ServerOk, HeldOk, OutboxOk, WorkerRowsOk, Genuine;
  }

  // ---------- Final statuses and spent rows ----------

  lemma {:induction false} LaterIsSound(w: World, actions: seq<Action>)
    requires Sound(w)
    ensures Sound(Run(w, actions))
  {
    hide Sound, After;
    if actions != [] {
      LaterIsSound(w, actions[..|actions| - 1]);
      ActionKeepsSound(Run(w, actions[..|actions| - 1]), actions[|actions| - 1]);
    }
  }

  lemma PassiveKeepsServer(w: World, a: Action, id: string)
    requires Enabled(w, a) && Passive(a) && id in w.server
    ensures id in After(w, a).server && After(w, a).server[id] == w.server[id]
  {
    hide Outbox.CanClaim, EventsOf, Outbox.ClaimAll, Outbox.ResetAll, Outbox.DeleteExpired, Source;
  }

  lemma StopKeepsFinal(w: World, a: Action, id: string)
    requires Enabled(w, a) && Stops(a)
    requires id in w.server && w.server[id].status.Terminal()
    ensures id in After(w, a).server && After(w, a).server[id].status == w.server[id].status
  {
    StopsParts(w, a);
    if a.ApplyUpdate? {
      Credentials.FinalStatusStays(w.server, ParamsOf(w.procs[a.pid].update), a.db, id);
    }
    hide AfterSettle, AfterDisconnect, AfterCrash, StatusConsumer.Reported, StatusConsumer.Applied, ParamsOf;
  }

  lemma ActionKeepsFinal(w: World, a: Action, id: string)
    requires id in w.server && w.server[id].status.Terminal()
    ensures id in After(w, a).server && After(w, a).server[id].status == w.server[id].status
  {
    hide After, Enabled, AfterWork, AfterDispatch, Ahead, EventAhead, CanCall;
    if !Enabled(w, a) {
      DisabledChangesNothing(w, a);
    } else if Passive(a) {
      PassiveKeepsServer(w, a, id);
    } else if Stops(a) {
      StopKeepsFinal(w, a, id);
    } else if Starts(a) {
      StartsParts(w, a);
    } else {
      CallKeepsServer(w, a);
    }
  }

  lemma CallKeepsServer(w: World, a: Action)
    requires Enabled(w, a) && Calls(a)
    ensures After(w, a).server == w.server
  {
    hide After, Enabled, AfterWork, AfterDispatch, Ahead, EventAhead, CanCall, WorkHistory, Worker.PerformRows, Moved, Contract.Publishing, Dispatcher.Perform;
    CallParts(w, a);
    var p := w.procs[a.pid];
    if a.Work? {
      WorkParts(w, a.pid, p, Ahead(p.request, w.limit, p.made, a.env));
    } else {
      DispatchParts(w, a.pid, p.event, EventAhead(p.event, p.published, a.answers, a.at, a.delay));
    }
  }

  /** A final status on the server never changes again. */
  lemma {:induction false} FinalStatusIsFinal(w: World, actions: seq<Action>, id: string)
    requires id in w.server && w.server[id].status.Terminal()
    ensures id in Run(w, actions).server && Run(w, actions).server[id].status == w.server[id].status
  {
    hide After;
    if actions != [] {
      FinalStatusIsFinal(w, actions[..|actions| - 1], id);
      ActionKeepsFinal(Run(w, actions[..|actions| - 1]), actions[|actions| - 1], id);
    }
  }

  // ---------- Redelivered updates ----------

  lemma AppliedRank(server: StatusConsumer.Rows, u: Update, db: Db, id: string)
    requires id in server && !u.status.Pending?
    ensures var after := StatusConsumer.Applied(server, ParamsOf(u), db);
            id in after && Redelivery.Rank(server[id].status) <= Redelivery.Rank(after[id].status)
  {}

  lemma ActionKeepsRank(w: World, a: Action, id: string)
    requires Sound(w) && id in w.server
    ensures id in After(w, a).server && Redelivery.Rank(w.server[id].status) <= Redelivery.Rank(After(w, a).server[id].status)
  {
    hide Sound, ProcOk, After, Enabled, AfterWork, AfterDispatch, CanCall, Redelivery.Rank;
    if !Enabled(w, a) {
      DisabledChangesNothing(w, a);
    } else if Passive(a) {
      PassiveKeepsServer(w, a, id);
    } else if a.ApplyUpdate? {
      StopIs(w, a);
      ApplyKeepsRank(w, a.pid, w.procs[a.pid], a.db, id);
    } else if Stops(a) {
      StopsParts(w, a);
    } else if Starts(a) {
      StartsParts(w, a);
    } else {
      CallKeepsServer(w, a);
    }
  }

  lemma ApplyKeepsRank(w: World, pid: nat, c: Proc, db: Db, id: string)
    requires Sound(w) && pid in w.procs && w.procs[pid] == c && c.Consuming? && id in w.server
    ensures var after := AfterApply(w, pid, c, db).server;
            && after == StatusConsumer.Applied(w.server, ParamsOf(c.update), db) && !c.update.status.Pending?
            && id in after && Redelivery.Rank(w.server[id].status) <= Redelivery.Rank(after[id].status)
  {
    ProcFound(w, pid);
    hide Sound, StatusConsumer.Applied, StatusConsumer.Reported, ParamsOf, Redelivery.Rank;
    AppliedRank(w.server, c.update, db, id);
  }

  /** In every run a deployment's status on the server never goes back. */
  lemma {:induction false} RankNeverFalls(w: World, actions: seq<Action>, id: string)
    requires Sound(w) && id in w.server
    ensures id in Run(w, actions).server
            && Redelivery.Rank(w.server[id].status) <= Redelivery.Rank(Run(w, actions).server[id].status)
  {
    hide Sound, After, Redelivery.Rank;
    if actions != [] {
      var shorter := actions[..|actions| - 1];
      RankNeverFalls(w, shorter, id);
      LaterIsSound(w, shorter);
      ActionKeepsRank(Run(w, shorter), actions[|actions| - 1], id);
    }
  }

  predicate SameStatusAgain(server: StatusConsumer.Rows, u: Update, db: Db) {
    && u.deploymentId in server
    && u.deploymentId in StatusConsumer.Applied(server, ParamsOf(u), db)
    && StatusConsumer.Applied(server, ParamsOf(u), db)[u.deploymentId].status == server[u.deploymentId].status
  }

  // Applying again what a row at or beyond that status has seen.
  lemma NoOpBeyond(server: StatusConsumer.Rows, u: Update, db: Db)
    requires u.deploymentId in server && !u.status.Pending? && Redelivery.Behind(ParamsOf(u), server[u.deploymentId])
    ensures var after := StatusConsumer.Applied(server, ParamsOf(u), db);
            u.deploymentId in after && after[u.deploymentId].status == server[u.deploymentId].status
  {}

  lemma AppliedStatus(server: StatusConsumer.Rows, u: Update, db: Db)
    requires StatusConsumer.Verdict(server, ParamsOf(u)).Ok? && db.Took()
    ensures var after := StatusConsumer.Applied(server, ParamsOf(u), db);
            u.deploymentId in after && after[u.deploymentId].status == u.status
  {}

  /**
   Redelivery converges in the pipeline: once an update was applied, applying
   it again at any later point of any run leaves the deployment's status.
   */
  lemma ReappliedIsHarmless(w: World, pid: nat, db: Db, actions: seq<Action>, again: Db)
    requires pid in w.procs && w.procs[pid].Consuming? && StatusConsumer.Next(w.procs[pid].results).Apply?
    requires Sound(w) && db.Took() && StatusConsumer.Verdict(w.server, ParamsOf(w.procs[pid].update)).Ok?
    ensures SameStatusAgain(Run(After(w, ApplyUpdate(pid, db)), actions).server, w.procs[pid].update, again)
  {
    hide Sound, Run, After, StatusConsumer.Applied, StatusConsumer.Verdict;
    var u, w1 := w.procs[pid].update, After(w, ApplyUpdate(pid, db));
    VerdictOnRow(w.server, u);
    StopIs(w, ApplyUpdate(pid, db));
    ApplyKeepsRank(w, pid, w.procs[pid], db, u.deploymentId);
    AppliedStatus(w.server, u, db);
    ActionKeepsSound(w, ApplyUpdate(pid, db));
    RankNeverFalls(w1, actions, u.deploymentId);
    if u.status.Terminal() {
      FinalStatusIsFinal(w1, actions, u.deploymentId);
    }
    NoOpBeyond(Run(w1, actions).server, u, again);
  }

  lemma VerdictOnRow(server: StatusConsumer.Rows, u: Update)
    requires StatusConsumer.Verdict(server, ParamsOf(u)).Ok?
    ensures u.deploymentId in server
  {}

  // ---------- No late processing ----------

  predicate Granted(p: Proc, id: string) { p.Working? && p.request.deploymentId == id && p.progress.granted }

  predicate Closed(w: World, id: string) { id in w.server && (w.server[id].status.Success? || w.server[id].status.Canceled?) }

  lemma WorkGrantsNone(w: World, a: Action, pid: nat, id: string)
    requires Closed(w, id) && Enabled(w, a) && a.Work? && pid in After(w, a).procs && Granted(After(w, a).procs[pid], id)
    ensures pid in w.procs && Granted(w.procs[pid], id)
  {
    hide After, Enabled, AfterWork, Ahead, CanCall, Moved, WorkHistory, Worker.PerformRows, Contract.Publishing;
    CallParts(w, a);
    var p := w.procs[a.pid];
    var ahead := Ahead(p.request, w.limit, p.made, a.env);
    WorkParts(w, a.pid, p, ahead);
    if pid == a.pid && !p.progress.granted {
      MovedGrant(w, p.request, p.progress, ahead[0]);
    }
  }

  lemma MovedGrant(w: World, req: Contract.BuildRequest, c: Protocol.Progress, e: Worker.Effect)
    requires CanCall(w, req, e) && Moved(c, req, w.limit, e).granted && !c.granted
    ensures Credentials.Available(w.server, req.deploymentId)
  {
    hide Protocol.InOrder, Credentials.Available;
  }

  lemma ActionGrantsNone(w: World, a: Action, pid: nat, id: string)
    requires Closed(w, id) && pid in After(w, a).procs && Granted(After(w, a).procs[pid], id)
    ensures pid in w.procs && Granted(w.procs[pid], id)
  {
    hide After, Enabled, AfterDispatch, EventAhead, CanCall, Closed;
    if !Enabled(w, a) {
      DisabledChangesNothing(w, a);
    } else if Passive(a) {
      PassiveParts(w, a);
    } else if Stops(a) {
      StopsParts(w, a);
    } else if Starts(a) {
      StartsParts(w, a);
    } else if a.Work? {
      WorkGrantsNone(w, a, pid, id);
    } else {
      CallParts(w, a);
      var p := w.procs[a.pid];
      DispatchParts(w, a.pid, p.event, EventAhead(p.event, p.published, a.answers, a.at, a.delay));
    }
  }

  lemma {:induction false} NoLateGrant(w: World, actions: seq<Action>, pid: nat, id: string)
    requires Closed(w, id) && pid in Run(w, actions).procs && Granted(Run(w, actions).procs[pid], id)
    ensures pid in w.procs && Granted(w.procs[pid], id)
  {
    hide After, Granted;
    if actions != [] {
      var shorter := actions[..|actions| - 1];
      FinalStatusIsFinal(w, shorter, id);
      ActionGrantsNone(Run(w, shorter), actions[|actions| - 1], pid, id);
      NoLateGrant(w, shorter, pid, id);
    }
  }

  // The calls of ProcessDeployment.
  predicate Processing(e: Worker.Effect) {
    e.Insert? || e.MarkBuilding? || e.ReadTag? || e.MarkFailed? || e.SetOutputUrl? || e.MarkFinished?
    || (e.Announce? && !e.update.status.Canceled?)
  }

  lemma ProcessingIsGranted(req: Contract.BuildRequest, limit: int, c: Protocol.Progress, e: Worker.Effect)
    requires Protocol.InOrder(req, limit, c, e) && Processing(e)
    ensures c.granted
  {
    hide Worker.LimitReached, Contract.Retry, Contract.Valid;
  }

  /**
   Once the server says success or canceled, ProcessDeployment makes no call
   for that deployment any more, except in deliveries that already held their
   credential at that time.
   */
  lemma NoLateProcessing(limit: int, unconfirmed: bool, before: seq<Action>, after: seq<Action>, a: Action, id: string)
    requires var w0 := Run(Start(limit, unconfirmed), before);
             var w := Run(w0, after);
             && Closed(w0, id) && Enabled(w, a) && a.Work? && CallIs(w, a, id)
             && Processing(NextCall(w, a))
    ensures var w0 := Run(Start(limit, unconfirmed), before); a.pid in w0.procs && Granted(w0.procs[a.pid], id)
  {
    var w0 := Run(Start(limit, unconfirmed), before);
    var w := Run(w0, after);
    hide Run, Sound, ProcOk, Ahead, CanCall, Achieved, Protocol.InOrder, Protocol.Advance, Protocol.Disciplined, Contract.Receive, Processing, Closed;
    RunIsSound(limit, unconfirmed, before);
    LaterIsSound(w0, after);
    var p := w.procs[a.pid];
    ProcFound(w, a.pid);
    ProcInOrder(w.limit, w.history, w.rows.Keys, p, a.env);
    ProcessingIsGranted(p.request, w.limit, p.progress, NextCall(w, a));
    NoLateGrant(w0, after, a.pid, id);
  }

  // ---------- Spent outbox rows ----------

  /** Rows that nothing will touch again, unless old sent ones are deleted. */
  predicate Spent(r: Outbox.Row) {
    r.state.Sent? || r.state.DeadLetter? || (!r.state.Publishing? && r.attempts >= Outbox.MAX_ATTEMPTS)
  }

  predicate SpentStays(rows: Outbox.Table, rows': Outbox.Table, id: nat)
    requires id in rows
  {
    if id in rows' then rows'[id] == rows[id] else rows[id].state.Sent?
  }

  lemma TableKeepsSpent(rows: Outbox.Table, id: nat, ids: seq<nat>, now: int, lease: int, retention: int)
    requires id in rows && Spent(rows[id])
    ensures Outbox.CanClaim(rows, now, ids) ==> SpentStays(rows, Outbox.ClaimAll(rows, ids, now), id)
    ensures SpentStays(rows, Outbox.ResetAll(rows, now, lease), id)
    ensures SpentStays(rows, Outbox.DeleteExpired(rows, now, retention), id)
  {
    if Outbox.CanClaim(rows, now, ids) {
      Dispatcher.BatchIsClaimable(rows, now, ids, id);
    }
  }

  lemma PerformKeepsSpent(rows: Outbox.Table, id: nat, at: nat, e: Dispatcher.Effect, now: int)
    requires id in rows && Spent(rows[id])
    ensures SpentStays(rows, Dispatcher.Perform(rows, at, e, now), id)
  {}

  lemma PassiveKeepsSpent(w: World, a: Action, id: nat)
    requires Enabled(w, a) && Passive(a) && id in w.outbox && id in w.history.recorded && Spent(w.outbox[id])
    ensures SpentStays(w.outbox, After(w, a).outbox, id)
  {
    TableKeepsSpent(w.outbox, id, if a.Claim? then a.ids else [], w.now,
                    if a.ResetStuck? then a.lease else 0, if a.DeleteSent? then a.retention else 0);
    hide Outbox.CanClaim, EventsOf, Outbox.ClaimAll, Outbox.ResetAll, Outbox.DeleteExpired, Source;
  }

  lemma ActionKeepsSpent(w: World, a: Action, id: nat)
    requires Sound(w) && id in w.outbox && Spent(w.outbox[id])
    ensures SpentStays(w.outbox, After(w, a).outbox, id)
  {
    SoundRow(w, id);
    hide Sound, After, Enabled, AfterWork, AfterDispatch, Ahead, EventAhead, CanCall, Spent;
    if !Enabled(w, a) {
      DisabledChangesNothing(w, a);
    } else if Passive(a) {
      PassiveKeepsSpent(w, a, id);
    } else if Stops(a) {
      StopsParts(w, a);
    } else if Starts(a) {
      StartsParts(w, a);
    } else {
      CallKeepsSpent(w, a, id);
    }
  }

  lemma CallKeepsSpent(w: World, a: Action, id: nat)
    requires Enabled(w, a) && Calls(a) && id in w.outbox && Spent(w.outbox[id])
    ensures SpentStays(w.outbox, After(w, a).outbox, id)
  {
    hide After, Enabled, AfterWork, AfterDispatch, Ahead, EventAhead, CanCall, Spent, WorkHistory, Worker.PerformRows, Moved,
      Contract.Publishing, Dispatcher.Perform;
    CallParts(w, a);
    var p := w.procs[a.pid];
    if a.Work? {
      WorkParts(w, a.pid, p, Ahead(p.request, w.limit, p.made, a.env));
    } else {
      DispatchParts(w, a.pid, p.event, EventAhead(p.event, p.published, a.answers, a.at, a.delay));
      PerformKeepsSpent(w.outbox, id, p.event.id, EventAhead(p.event, p.published, a.answers, a.at, a.delay)[0], w.now);
    }
  }

  lemma SoundRow(w: World, id: nat)
    requires Sound(w) && id in w.outbox
    ensures id in w.history.recorded
  {
    hide ProcsOk, JobsOk, UpdatesOk, ServerOk, HeldOk, WorkerRowsOk, Dispatcher.Message;
    assert RowOk(w.history, id, w.outbox[id]);
  }

  lemma GoneStaysGone(w: World, a: Action, id: nat)
    requires id in w.history.recorded && id !in w.outbox
    ensures id !in After(w, a).outbox
  {
    hide After, Enabled, AfterWork, AfterDispatch, Ahead, EventAhead, CanCall, WorkHistory, Worker.PerformRows, Moved, Contract.Publishing, Dispatcher.Perform;
    if !Enabled(w, a) {
      DisabledChangesNothing(w, a);
    } else if Passive(a) {
      PassiveAddsRecorded(w, a, id);
    } else if Stops(a) {
      StopsParts(w, a);
    } else if Starts(a) {
      StartsParts(w, a);
    } else {
      CallParts(w, a);
      var p := w.procs[a.pid];
      if a.Work? {
        WorkParts(w, a.pid, p, Ahead(p.request, w.limit, p.made, a.env));
      } else {
        DispatchParts(w, a.pid, p.event, EventAhead(p.event, p.published, a.answers, a.at, a.delay));
        PerformKeepsKeys(w.outbox, p.event.id, EventAhead(p.event, p.published, a.answers, a.at, a.delay)[0], w.now);
      }
    }
  }

  lemma PerformKeepsKeys(rows: Outbox.Table, id: nat, e: Dispatcher.Effect, now: int)
    ensures Dispatcher.Perform(rows, id, e, now).Keys == rows.Keys
  {}

  lemma PassiveAddsRecorded(w: World, a: Action, id: nat)
    requires Enabled(w, a) && Passive(a) && id in w.history.recorded && id !in w.outbox
    ensures id !in After(w, a).outbox
  {
    hide Outbox.CanClaim, EventsOf;
  }

  /** A spent row stays as it is in every run; a sent one may be deleted. */
  lemma {:induction false} SpentForever(w: World, actions: seq<Action>, id: nat)
    requires Sound(w) && id in w.outbox && Spent(w.outbox[id])
    ensures SpentStays(w.outbox, Run(w, actions).outbox, id)
    ensures id in w.history.recorded && id in Run(w, actions).history.recorded
  {
    hide Sound, After, Spent;
    SoundRow(w, id);
    if actions != [] {
      var shorter := actions[..|actions| - 1];
      SpentForever(w, shorter, id);
      LaterIsSound(w, shorter);
      var v := Run(w, shorter);
      RecordedStays(v, actions[|actions| - 1]);
      if id in v.outbox {
        ActionKeepsSpent(v, actions[|actions| - 1], id);
      } else {
        GoneStaysGone(v, actions[|actions| - 1], id);
      }
    }
  }
}
