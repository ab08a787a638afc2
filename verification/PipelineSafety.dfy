/** Every action keeps the pipeline sound, hence every run does. */
module PipelineSafety {
  import opened Wrappers
  import Contract
  import opened Faults
  import opened Status
  import Outbox
  import Dispatcher
  import Worker
  import Protocol
  import StatusConsumer
  import Credentials
  import opened Pipeline

  // ---------- One part of the world changes ----------

  ghost predicate Grows(h: History, h': History) {
    && (forall id | id in h.recorded :: id in h'.recorded && h'.recorded[id] == h.recorded[id])
    && h.confirmed <= h'.confirmed && h.inserted <= h'.inserted && h.finished <= h'.finished
    && h.gaveUp <= h'.gaveUp && h.announced <= h'.announced && h.done <= h'.done && h.lost <= h'.lost
  }

  lemma GenuineStays(h: History, h': History, m: Contract.Envelope)
    requires Grows(h, h') && Genuine(h, m)
    ensures Genuine(h', m)
  {
    hide Contract.Receive, Contract.Publishing, Source;
  }

  lemma ProcStays(limit: int, h: History, ids: set<string>, h': History, ids': set<string>, p: Proc)
    requires Grows(h, h') && ids <= ids' && ProcOk(limit, h, ids, p)
    ensures ProcOk(limit, h', ids', p)
  {
    hide Contract.Receive, Dispatcher.Message, Protocol.Walk, Genuine;
    if p.Working? {
      GenuineStays(h, h', p.job);
    }
  }

  lemma ProcsStay(limit: int, h: History, ids: set<string>, h': History, ids': set<string>, procs: map<nat, Proc>, next: nat)
    requires Grows(h, h') && ids <= ids' && ProcsOk(limit, h, ids, procs, next)
    ensures ProcsOk(limit, h', ids', procs, next)
  {
    hide ProcOk, Grows;
    forall pid | pid in procs ensures ProcOk(limit, h', ids', procs[pid]) {
      ProcStays(limit, h, ids, h', ids', procs[pid]);
    }
  }

  lemma JobsStay(h: History, h': History, jobs: multiset<Contract.Envelope>)
    requires Grows(h, h') && JobsOk(h, jobs)
    ensures JobsOk(h', jobs)
  {
    hide Genuine, Grows;
    forall m | m in jobs ensures Genuine(h', m) {
      GenuineStays(h, h', m);
    }
  }

  /** Everything but the outbox and the worker's rows stays in order when history grows. */
  lemma HistoryGrows(w: World, h': History, ids': set<string>)
    requires Sound(w) && Grows(w.history, h') && w.rows.Keys <= ids'
    ensures ProcsOk(w.limit, h', ids', w.procs, w.next) && JobsOk(h', w.jobs) && JobsOk(h', w.dlq)
    ensures UpdatesOk(h', w.updates) && UpdatesOk(h', w.updatesDlq) && ServerOk(h', w.server) && HeldOk(h', w.held)
    ensures forall id | id in w.outbox :: RowOk(h', id, w.outbox[id])
  {
    ProcsStay(w.limit, w.history, w.rows.Keys, h', ids', w.procs, w.next);
    JobsStay(w.history, h', w.jobs);
    JobsStay(w.history, h', w.dlq);
    hide ProcsOk, JobsOk, Dispatcher.Message, WorkerRowsOk;
  }

  lemma JobAdded(h: History, jobs: multiset<Contract.Envelope>, m: Contract.Envelope)
    requires JobsOk(h, jobs) && Genuine(h, m)
    ensures JobsOk(h, jobs + multiset{m})
  {
    hide Genuine;
  }

  lemma JobTaken(h: History, jobs: multiset<Contract.Envelope>, m: Contract.Envelope)
    requires JobsOk(h, jobs)
    ensures JobsOk(h, jobs - multiset{m})
  {
    hide Genuine;
  }

  lemma UpdateAdded(h: History, updates: multiset<Update>, u: Update)
    requires UpdatesOk(h, updates) && UpdateOk(h, u)
    ensures UpdatesOk(h, updates + multiset{u})
  {
    hide UpdateOk;
  }

  lemma UpdateTaken(h: History, updates: multiset<Update>, u: Update)
    requires UpdatesOk(h, updates)
    ensures UpdatesOk(h, updates - multiset{u})
  {
    hide UpdateOk;
  }

  lemma ProcSet(limit: int, h: History, ids: set<string>, procs: map<nat, Proc>, next: nat, pid: nat, p: Proc)
    requires ProcsOk(limit, h, ids, procs, next) && ProcOk(limit, h, ids, p)
    ensures ProcsOk(limit, h, ids, procs[pid := p], if pid < next then next else pid + 1)
    ensures ProcsOk(limit, h, ids, procs - {pid}, next)
  {
    hide ProcOk;
  }

  lemma ProcDropped(limit: int, h: History, ids: set<string>, procs: map<nat, Proc>, next: nat, pid: nat)
    requires ProcsOk(limit, h, ids, procs, next)
    ensures ProcsOk(limit, h, ids, procs - {pid}, next)
  {
    hide ProcOk;
  }

  lemma ProcFound(w: World, pid: nat)
    requires Sound(w) && pid in w.procs
    ensures ProcOk(w.limit, w.history, w.rows.Keys, w.procs[pid]) && pid < w.next
  {
    hide ProcOk, JobsOk, UpdatesOk, ServerOk, OutboxOk, HeldOk, WorkerRowsOk;
  }

  // ---------- Dispatchers ----------

  lemma SamePayload(r: Outbox.Row, r': Outbox.Row)
    requires r.eventType == r'.eventType && r.version == r'.version && r.payload == r'.payload
    ensures Dispatcher.Message(r) == Dispatcher.Message(r')
  {}

  lemma RecordKeepsSound(w: World, id: nat, row: Outbox.Row, deployment: string, installation: string)
    requires Sound(w) && Enabled(w, Record(id, row, deployment, installation))
    ensures Sound(AfterRecord(w, id, row, deployment, installation))
  {
    var w' := AfterRecord(w, id, row, deployment, installation);
    RecordedOk(w.history, w.outbox, id, row);
    HistoryGrows(w, w'.history, w.rows.Keys);
    PendingOk(w'.history, w.server, deployment, installation);
    assert WorkerRowsOk(w'.history, w.rows.Keys);
    hide ProcsOk, JobsOk, UpdatesOk, HeldOk, OutboxOk, ServerOk, WorkerRowsOk, Grows;
  }

  lemma RecordedOk(h: History, outbox: Outbox.Table, id: nat, row: Outbox.Row)
    requires OutboxOk(h, outbox) && id !in h.recorded && row.state.Pending?
    ensures var h' := h.(recorded := h.recorded[id := row]); Grows(h, h') && OutboxOk(h', outbox[id := row])
  {
    hide Dispatcher.Message;
    forall x | x in outbox ensures x != id && RowOk(h.(recorded := h.recorded[id := row]), x, outbox[x]) {
      assert RowOk(h, x, outbox[x]);
    }
  }

  lemma PendingOk(h: History, server: StatusConsumer.Rows, deployment: string, installation: string)
    requires ServerOk(h, server)
    ensures ServerOk(h, server[deployment := StatusConsumer.Row(Pending, "", "", installation)])
  {}

  // The two tables have the same events, no row became sent, and only sent rows are gone.
  ghost predicate SameEvents(rows: Outbox.Table, rows': Outbox.Table) {
    && (forall id | id in rows' ::
          && id in rows
          && rows'[id].eventType == rows[id].eventType && rows'[id].version == rows[id].version && rows'[id].payload == rows[id].payload
          && (rows'[id].state.Sent? ==> rows[id].state.Sent?))
    && (forall id | id in rows && id !in rows' :: rows[id].state.Sent?)
  }

  lemma TableStaysOk(h: History, rows: Outbox.Table, rows': Outbox.Table)
    requires OutboxOk(h, rows) && SameEvents(rows, rows')
    ensures OutboxOk(h, rows')
  {
    forall id | id in rows' ensures RowOk(h, id, rows'[id]) {
      SamePayload(rows[id], rows'[id]);
      assert RowOk(h, id, rows[id]);
    }
    hide Dispatcher.Message;
  }

  lemma {:induction false} EventsOfRows(rows: Outbox.Table, ids: seq<nat>)
    ensures forall e | e in EventsOf(rows, ids) :: e.id in rows && e.row == rows[e.id]
  {
    if ids != [] {
      EventsOfRows(rows, ids[1..]);
    }
  }

  lemma EventsHeld(h: History, outbox: Outbox.Table, held: multiset<Dispatcher.Event>, ids: seq<nat>)
    requires OutboxOk(h, outbox) && HeldOk(h, held)
    ensures HeldOk(h, held + EventsOf(outbox, ids))
  {
    EventsOfRows(outbox, ids);
    hide SameEvent;
    forall e | e in held + EventsOf(outbox, ids) ensures SameEvent(h, e.id, e.row) {
      if e in EventsOf(outbox, ids) {
        assert RowOk(h, e.id, outbox[e.id]);
      }
    }
  }

  lemma ClaimKeepsSound(w: World, ids: seq<nat>, reported: bool)
    requires Sound(w)
    ensures Sound(AfterClaim(w, ids, reported))
  {
    var outbox := Outbox.ClaimAll(w.outbox, ids, w.now);
    assert SameEvents(w.outbox, outbox);
    TableStaysOk(w.history, w.outbox, outbox);
    EventsHeld(w.history, outbox, w.held, ids);
    hide ProcsOk, JobsOk, UpdatesOk, HeldOk, OutboxOk, ServerOk, WorkerRowsOk, SameEvents;
  }

  lemma ReconcileKeepsSound(w: World, lease: int, retention: int)
    requires Sound(w)
    ensures Sound(w.(outbox := Outbox.ResetAll(w.outbox, w.now, lease)))
    ensures Sound(w.(outbox := Outbox.DeleteExpired(w.outbox, w.now, retention)))
  {
    TableStaysOk(w.history, w.outbox, Outbox.ResetAll(w.outbox, w.now, lease));
    TableStaysOk(w.history, w.outbox, Outbox.DeleteExpired(w.outbox, w.now, retention));
    hide ProcsOk, JobsOk, UpdatesOk, HeldOk, OutboxOk, ServerOk, WorkerRowsOk, SameEvents;
  }

  lemma ForgetKeepsSound(w: World, events: multiset<Dispatcher.Event>)
    requires Sound(w) && events <= w.held
    ensures Sound(w.(held := w.held - events))
  {
    hide ProcsOk, JobsOk, UpdatesOk, OutboxOk, ServerOk, WorkerRowsOk, SameEvent;
  }

  lemma BeginKeepsSound(w: World, e: Dispatcher.Event)
    requires Sound(w) && e in w.held
    ensures Sound(AfterBegin(w, e))
  {
    HeldFound(w, e);
    ForgetKeepsSound(w, multiset{e});
    hide ProcsOk, JobsOk, UpdatesOk, OutboxOk, ServerOk, WorkerRowsOk, HeldOk, EventInOrder;
    ProcSet(w.limit, w.history, w.rows.Keys, w.procs, w.next, w.next, Dispatching(e, None));
  }

  lemma HeldFound(w: World, e: Dispatcher.Event)
    requires Sound(w) && e in w.held
    ensures EventInOrder(w.history, e, None)
  {
    hide ProcsOk, JobsOk, UpdatesOk, OutboxOk, ServerOk, WorkerRowsOk, SameEvent;
  }

  /** What the dispatcher publishes is genuine. */
  lemma MessageIsGenuine(h: History, id: nat, m: Contract.Envelope)
    requires id in h.recorded && Dispatcher.Message(h.recorded[id]) == Some(m)
    ensures Genuine(h, m) && Source(h.recorded[id]) == Some(Contract.Receive(m).value)
  {
    hide Contract.Receive, Contract.Publishing, Contract.Unmarshal, Contract.Validate;
    Contract.PublishedIsReceived(Contract.DecodeV1(h.recorded[id].payload).value);
  }

  /** The first of the calls that are still to make. */
  lemma NextEffect(h: History, event: Dispatcher.Event, published: Option<Confirm>, answers: Dispatcher.EventEnv, at: int, delay: int)
    requires EventInOrder(h, event, published) && EventAhead(event, published, answers, at, delay) != []
    ensures var ahead := EventAhead(event, published, answers, at, delay);
            && event.id in h.recorded && Dispatcher.Message(event.row) == Dispatcher.Message(h.recorded[event.id])
            && (ahead[0].Send? ==> published.None? && Dispatcher.Message(event.row) == Some(ahead[0].message))
            && (ahead[0].RecordSent? ==> published == Some(Acked) && event.id in h.confirmed)
            && (|ahead| > 1 ==> ahead[0].Send?)
  {
    hide Dispatcher.Message;
  }

  lemma DispatchedKeepsSound(w: World, pid: nat, event: Dispatcher.Event, ahead: seq<Dispatcher.Effect>)
    requires Sound(w) && pid in w.procs && ahead != []
    requires ahead[0].Send? ==> EventInOrder(w.history, event, Some(ahead[0].confirm))
    ensures Sound(Dispatched(w, pid, event, ahead))
  {
    ProcFound(w, pid);
    hide ProcsOk, JobsOk, UpdatesOk, OutboxOk, ServerOk, WorkerRowsOk, HeldOk, EventInOrder;
    if ahead[0].Send? && |ahead| > 1 {
      ProcSet(w.limit, w.history, w.rows.Keys, w.procs, w.next, pid, Dispatching(event, Some(ahead[0].confirm)));
    } else {
      ProcDropped(w.limit, w.history, w.rows.Keys, w.procs, w.next, pid);
    }
  }

  lemma ConfirmKeepsSound(w: World, id: nat)
    requires Sound(w)
    ensures Sound(Confirmed(w, id, Acked)) && Grows(w.history, Confirmed(w, id, Acked).history)
  {
    var h' := w.history.(confirmed := w.history.confirmed + {id});
    HistoryGrows(w, h', w.rows.Keys);
    hide ProcsOk, JobsOk, UpdatesOk, ServerOk, HeldOk, RowOk;
  }

  lemma AddJobKeepsSound(w: World, m: Contract.Envelope)
    requires Sound(w) && Genuine(w.history, m)
    ensures Sound(w.(jobs := w.jobs + multiset{m})) && Sound(w.(dlq := w.dlq + multiset{m}))
  {
    JobAdded(w.history, w.jobs, m);
    JobAdded(w.history, w.dlq, m);
    hide ProcsOk, JobsOk, UpdatesOk, OutboxOk, ServerOk, WorkerRowsOk, HeldOk, Genuine;
  }

  lemma DispatchKeepsSound(w: World, pid: nat, answers: Dispatcher.EventEnv, at: int, delay: int)
    requires Sound(w) && Enabled(w, Dispatch(pid, answers, at, delay))
    ensures var p := w.procs[pid]; Sound(AfterDispatch(w, pid, p.event, EventAhead(p.event, p.published, answers, at, delay)))
  {
    hide Sound, EventInOrder, EventAhead, AfterDispatch;
    var p := w.procs[pid];
    var ahead := EventAhead(p.event, p.published, answers, at, delay);
    ProcFound(w, pid);
    NextEffect(w.history, p.event, p.published, answers, at, delay);
    if ahead[0].Send? {
      SendKeepsSound(w, pid, p.event, ahead);
    } else {
      RecordResultKeepsSound(w, pid, p.event, ahead);
    }
  }

  lemma SendKeepsSound(w: World, pid: nat, event: Dispatcher.Event, ahead: seq<Dispatcher.Effect>)
    requires Sound(w) && pid in w.procs && ahead != [] && ahead[0].Send?
    requires SameEvent(w.history, event.id, event.row) && Dispatcher.Message(event.row) == Some(ahead[0].message)
    ensures Sound(AfterDispatch(w, pid, event, ahead))
  {
    hide Sound, SameEvent, Genuine, Dispatched, Grows, Confirmed;
    SentIsGenuine(w, pid, event, ahead);
    AddJobKeepsSound(Dispatched(Confirmed(w, event.id, ahead[0].confirm), pid, event, ahead), ahead[0].message);
  }

  lemma SentIsGenuine(w: World, pid: nat, event: Dispatcher.Event, ahead: seq<Dispatcher.Effect>)
    requires Sound(w) && pid in w.procs && ahead != [] && ahead[0].Send?
    requires SameEvent(w.history, event.id, event.row) && Dispatcher.Message(event.row) == Some(ahead[0].message)
    ensures var v := Dispatched(Confirmed(w, event.id, ahead[0].confirm), pid, event, ahead);
            Sound(v) && Genuine(v.history, ahead[0].message)
  {
    hide Sound, Genuine, Dispatcher.Message, Dispatched, Grows, Confirmed, Contract.Receive, Source;
    var w1 := Confirmed(w, event.id, ahead[0].confirm);
    MessageIsGenuine(w.history, event.id, ahead[0].message);
    ConfirmedKeepsSound(w, event.id, ahead[0].confirm);
    GenuineStays(w.history, w1.history, ahead[0].message);
    DispatchedKeepsSound(w1, pid, event, ahead);
    DispatchedHistory(w1, pid, event, ahead);
  }

  lemma ConfirmedKeepsSound(w: World, id: nat, confirm: Confirm)
    requires Sound(w)
    ensures var w' := Confirmed(w, id, confirm);
            && Sound(w') && Grows(w.history, w'.history) && w'.procs == w.procs && w'.history.recorded == w.history.recorded
            && (confirm.Acked? ==> id in w'.history.confirmed)
  {
    hide Sound;
    ConfirmKeepsSound(w, id);
  }

  lemma DispatchedHistory(w: World, pid: nat, event: Dispatcher.Event, ahead: seq<Dispatcher.Effect>)
    requires ahead != []
    ensures Dispatched(w, pid, event, ahead).history == w.history
  {}

  lemma RecordResultKeepsSound(w: World, pid: nat, event: Dispatcher.Event, ahead: seq<Dispatcher.Effect>)
    requires Sound(w) && pid in w.procs && ahead != [] && !ahead[0].Send? && (ahead[0].RecordSent? ==> event.id in w.history.confirmed)
    ensures Sound(AfterDispatch(w, pid, event, ahead))
  {
    DispatchedKeepsSound(w, pid, event, ahead);
    PerformKeepsOutboxOk(w.history, w.outbox, event.id, ahead[0], w.now);
    hide ProcsOk, JobsOk, UpdatesOk, OutboxOk, ServerOk, WorkerRowsOk, HeldOk, Dispatcher.Perform;
  }

  lemma PerformKeepsOutboxOk(h: History, outbox: Outbox.Table, id: nat, e: Dispatcher.Effect, now: int)
    requires OutboxOk(h, outbox) && (e.RecordSent? ==> id in h.confirmed)
    ensures OutboxOk(h, Dispatcher.Perform(outbox, id, e, now))
  {
    if id in outbox {
      SamePayload(outbox[id], Dispatcher.Perform(outbox, id, e, now)[id]);
      assert RowOk(h, id, outbox[id]);
    }
    hide Dispatcher.Message;
  }

  // ---------- Workers ----------

  lemma DeliverKeepsSound(w: World, job: Contract.Envelope, settle: bool)
    requires Sound(w) && job in w.jobs
    ensures Sound(AfterDeliver(w, job, settle))
  {
    hide Contract.Receive, Contract.Publishing, Source;
    assert Genuine(w.history, job);
    var p := Working(job, Contract.Receive(job).value, [], Protocol.NO_PROGRESS, true);
    assert ProcOk(w.limit, w.history, w.rows.Keys, p);
    JobTaken(w.history, w.jobs, job);
    ProcSet(w.limit, w.history, w.rows.Keys, w.procs, w.next, w.next, p);
    hide ProcsOk, JobsOk, UpdatesOk, OutboxOk, ServerOk, WorkerRowsOk, HeldOk, Genuine;
  }

  /** The calls that are still to make are in order, and the first of them continues those made. */
  lemma AheadInOrder(req: Contract.BuildRequest, limit: int, made: seq<Worker.Effect>, c: Protocol.Progress, env: Worker.Env)
    requires Protocol.Walk(req, limit, Protocol.NO_PROGRESS, made) == Some(c) && Ahead(req, limit, made, env) != []
    ensures var ahead := Ahead(req, limit, made, env);
            && Protocol.InOrder(req, limit, c, ahead[0]) && Protocol.Advance(req, limit, c, ahead[0]).Some?
            && Protocol.Disciplined(req, limit, Moved(c, req, limit, ahead[0]), ahead[1..])
            && Protocol.Walk(req, limit, Protocol.NO_PROGRESS, made + [ahead[0]]) == Some(Moved(c, req, limit, ahead[0]))
  {
    hide Worker.Delivery, Protocol.InOrder;
    var ahead := Ahead(req, limit, made, env);
    assert made + ahead == Worker.Delivery(req, limit, env);
    Protocol.DeliveryIsDisciplined(req, limit, env);
    Protocol.WalkConcat(req, limit, Protocol.NO_PROGRESS, made, ahead);
    Protocol.WalkConcat(req, limit, Protocol.NO_PROGRESS, made, [ahead[0]]);
    Protocol.WalkOne(req, limit, c, ahead[0]);
  }

  /** Progress that a call makes is achieved by that call, and history only grows. */
  lemma CallAchieves(w: World, req: Contract.BuildRequest, c: Protocol.Progress, e: Worker.Effect)
    requires Achieved(w.history, w.rows.Keys, req.deploymentId, c) && Protocol.InOrder(req, w.limit, c, e)
    requires Protocol.Advance(req, w.limit, c, e).Some? && CanCall(w, req, e)
    ensures var h', rows' := WorkHistory(w.history, w.rows, req, e), Worker.PerformRows(w.rows, req, e);
            && Grows(w.history, h') && w.rows.Keys <= rows'.Keys
            && Achieved(h', rows'.Keys, req.deploymentId, Moved(c, req, w.limit, e))
  {
    hide Contract.Valid, Worker.LimitReached, Contract.Retry, Credentials.Available;
  }

  lemma CallKeepsRowsOk(h: History, rows: Worker.Rows, limit: int, req: Contract.BuildRequest, c: Protocol.Progress, e: Worker.Effect)
    requires WorkerRowsOk(h, rows.Keys) && Achieved(h, rows.Keys, req.deploymentId, c) && Protocol.InOrder(req, limit, c, e)
    ensures WorkerRowsOk(WorkHistory(h, rows, req, e), Worker.PerformRows(rows, req, e).Keys)
  {
    hide Contract.Valid, Worker.LimitReached, Contract.Retry;
  }

  lemma WorkKeepsRecords(h: History, rows: Worker.Rows, req: Contract.BuildRequest, e: Worker.Effect)
    ensures var h' := WorkHistory(h, rows, req, e); h'.recorded == h.recorded && h'.confirmed == h.confirmed
  {}

  lemma CalledKeepsSound(w: World, req: Contract.BuildRequest, c: Protocol.Progress, e: Worker.Effect)
    requires Sound(w)
    requires Achieved(w.history, w.rows.Keys, req.deploymentId, c) && Protocol.InOrder(req, w.limit, c, e)
    requires Protocol.Advance(req, w.limit, c, e).Some? && CanCall(w, req, e)
    ensures Sound(Called(w, req, e)) && Grows(w.history, Called(w, req, e).history)
  {
    hide Protocol.Advance, Protocol.InOrder, Achieved, CanCall, WorkHistory, Worker.PerformRows, Genuine, Grows;
    CallAchieves(w, req, c, e);
    CallKeepsRowsOk(w.history, w.rows, w.limit, req, c, e);
    WorkKeepsRecords(w.history, w.rows, req, e);
    var w' := Called(w, req, e);
    HistoryGrows(w, w'.history, w'.rows.Keys);
    hide ProcsOk, JobsOk, UpdatesOk, ServerOk, WorkerRowsOk, HeldOk, RowOk;
  }

  /** A retry repeats the genuine message it came from. */
  lemma RetryIsGenuine(h: History, job: Contract.Envelope, req: Contract.BuildRequest)
    requires Genuine(h, job) && Contract.Receive(job) == Ok(req) && Contract.Publishing(Contract.Retry(req)).Ok?
    ensures Genuine(h, Contract.Publishing(Contract.Retry(req)).value)
  {
    Contract.ReceivedIsValid(job);
    Contract.RetryStaysPublishable(req);
    Contract.PublishedIsReceived(Contract.Retry(req));
    hide Contract.Receive, Contract.Publishing, Contract.Valid, Source;
  }

  /** An update that reaches the queue is backed by what the worker has achieved, and is noted. */
  lemma AnnouncedIsTruthful(h: History, rows: Worker.Rows, req: Contract.BuildRequest, c: Protocol.Progress, u: Update, p: Publish)
    requires Achieved(h, rows.Keys, req.deploymentId, c) && Protocol.Announceable(req, c, u) && p.Arrived()
    ensures UpdateOk(WorkHistory(h, rows, req, Worker.Announce(u, p)), u)
  {}

  lemma AddUpdateKeepsSound(w: World, u: Update)
    requires Sound(w) && UpdateOk(w.history, u)
    ensures Sound(w.(updates := w.updates + multiset{u})) && Sound(w.(updatesDlq := w.updatesDlq + multiset{u}))
  {
    UpdateAdded(w.history, w.updates, u);
    UpdateAdded(w.history, w.updatesDlq, u);
    hide ProcsOk, JobsOk, UpdatesOk, OutboxOk, ServerOk, WorkerRowsOk, HeldOk, UpdateOk;
  }

  lemma WorkedKeepsSound(w: World, pid: nat, p: Proc, ahead: seq<Worker.Effect>)
    requires Sound(w) && pid in w.procs && p.Working? && ahead != []
    requires ProcOk(w.limit, w.history, w.rows.Keys, Continued(p, w.limit, ahead[0]))
    ensures Sound(Worked(w, pid, p, ahead))
  {
    ProcFound(w, pid);
    hide ProcsOk, JobsOk, UpdatesOk, OutboxOk, ServerOk, WorkerRowsOk, HeldOk, ProcOk, Moved;
    if |ahead| == 1 {
      ProcDropped(w.limit, w.history, w.rows.Keys, w.procs, w.next, pid);
    } else {
      ProcSet(w.limit, w.history, w.rows.Keys, w.procs, w.next, pid, Continued(p, w.limit, ahead[0]));
    }
  }

  lemma WorkKeepsSound(w: World, pid: nat, env: Worker.Env)
    requires Sound(w) && Enabled(w, Work(pid, env))
    ensures var p := w.procs[pid]; Sound(AfterWork(w, pid, p, Ahead(p.request, w.limit, p.made, env)))
  {
    hide Sound, Genuine, Ahead, Protocol.Walk, Protocol.Advance, Protocol.InOrder, Protocol.Disciplined, Achieved, CanCall, WorkHistory,
      Worker.PerformRows, Moved, Contract.Receive, Grows;
    var p := w.procs[pid];
    var ahead := Ahead(p.request, w.limit, p.made, env);
    ProcFound(w, pid);
    AheadInOrder(p.request, w.limit, p.made, p.progress, env);
    CallAchieves(w, p.request, p.progress, ahead[0]);
    CalledKeepsSound(w, p.request, p.progress, ahead[0]);
    var w1 := Called(w, p.request, ahead[0]);
    assert w1.procs == w.procs && w1.limit == w.limit;
    GenuineStays(w.history, w1.history, p.job);
    WorkedKeepsSound(w1, pid, p, ahead);
    WorkedHistory(w1, pid, p, ahead);
    hide Called, Worked;
    QueuesKeepSound(w, Worked(w1, pid, p, ahead), p, p.progress, ahead[0]);
  }

  lemma WorkedHistory(w: World, pid: nat, p: Proc, ahead: seq<Worker.Effect>)
    requires p.Working? && ahead != []
    ensures Worked(w, pid, p, ahead).history == w.history
  {}

  lemma QueuesKeepSound(before: World, w: World, p: Proc, c: Protocol.Progress, e: Worker.Effect)
    requires Sound(w) && p.Working? && Genuine(w.history, p.job) && Contract.Receive(p.job) == Ok(p.request)
    requires w.history == WorkHistory(before.history, before.rows, p.request, e)
    requires Achieved(before.history, before.rows.Keys, p.request.deploymentId, c)
    requires Protocol.InOrder(p.request, before.limit, c, e)
    ensures Sound(Enqueued(w, p.job, p.own, e))
  {
    hide Sound, Genuine, Contract.Receive, Contract.Publishing, Contract.Retry, Contract.Valid, Worker.LimitReached, Protocol.Announceable,
      Achieved, WorkHistory, UpdateOk;
    AddJobKeepsSound(w, p.job);
    if e.Announce? && e.publish.Arrived() {
      AnnouncedIsTruthful(before.history, before.rows, p.request, c, e.update, e.publish);
      AddUpdateKeepsSound(w, e.update);
    } else if e.Republish? && Contract.Publishing(e.request).Ok? {
      RetryIsGenuine(w.history, p.job, p.request);
      AddJobKeepsSound(w, Contract.Publishing(e.request).value);
    }
  }

  // ---------- The status consumer ----------

  lemma DeliverUpdateKeepsSound(w: World, update: Update)
    requires Sound(w) && update in w.updates
    ensures Sound(AfterDeliverUpdate(w, update))
  {
    assert UpdateOk(w.history, update);
    TakeUpdateKeepsSound(w, update);
    hide Sound, StatusConsumer.Decode, StatusConsumer.Encode, ParamsOf, UpdateOk;
    var v := TakeUpdate(w, update);
    AddUpdateKeepsSound(v, update);
    SpawnKeepsSound(v, Consuming(update, [], true));
  }

  lemma TakeUpdateKeepsSound(w: World, update: Update)
    requires Sound(w)
    ensures Sound(w.(updates := w.updates - multiset{update}))
  {
    hide ProcsOk, JobsOk, UpdatesOk, OutboxOk, ServerOk, WorkerRowsOk, HeldOk;
    UpdateTaken(w.history, w.updates, update);
  }

  lemma SpawnKeepsSound(w: World, p: Proc)
    requires Sound(w) && ProcOk(w.limit, w.history, w.rows.Keys, p)
    ensures Sound(Spawn(w, p))
  {
    hide ProcsOk, JobsOk, UpdatesOk, OutboxOk, ServerOk, WorkerRowsOk, HeldOk, ProcOk;
    ProcSet(w.limit, w.history, w.rows.Keys, w.procs, w.next, w.next, p);
  }

  lemma ApplyKeepsSound(w: World, pid: nat, db: Db)
    requires Sound(w) && pid in w.procs && w.procs[pid].Consuming?
    ensures Sound(AfterApply(w, pid, w.procs[pid], db))
  {
    ProcFound(w, pid);
    var c := w.procs[pid];
    AppliedStaysTruthful(w.history, w.server, c.update, db);
    hide ProcsOk, JobsOk, UpdatesOk, OutboxOk, ServerOk, WorkerRowsOk, HeldOk, UpdateOk, StatusConsumer.Reported, StatusConsumer.Applied;
    ProcSet(w.limit, w.history, w.rows.Keys, w.procs, w.next, pid,
            c.(results := c.results + [StatusConsumer.Reported(w.server, ParamsOf(c.update), db)]));
  }

  lemma AppliedStaysTruthful(h: History, server: StatusConsumer.Rows, u: Update, db: Db)
    requires ServerOk(h, server) && UpdateOk(h, u)
    ensures ServerOk(h, StatusConsumer.Applied(server, ParamsOf(u), db))
  {}

  lemma SettleKeepsSound(w: World, pid: nat, ok: bool)
    requires Sound(w) && pid in w.procs && w.procs[pid].Consuming?
    ensures Sound(AfterSettle(w, pid, w.procs[pid], ok))
  {
    ProcFound(w, pid);
    StopKeepsSound(w, pid);
    hide Sound, UpdateOk, StatusConsumer.Next;
    AddUpdateKeepsSound(Stop(w, pid), w.procs[pid].update);
  }

  lemma StopKeepsSound(w: World, pid: nat)
    requires Sound(w) && pid in w.procs
    ensures Sound(Stop(w, pid))
  {
    hide ProcsOk, JobsOk, UpdatesOk, OutboxOk, ServerOk, WorkerRowsOk, HeldOk;
    ProcDropped(w.limit, w.history, w.rows.Keys, w.procs, w.next, pid);
  }

  lemma RedeliveredKeepsSound(w: World, p: Proc)
    requires Sound(w) && ProcOk(w.limit, w.history, w.rows.Keys, p)
    ensures Sound(Redelivered(w, p))
  {
    hide Sound, UpdateOk, Genuine, EventInOrder, Protocol.Walk, Achieved;
    match p {
      case Dispatching(_, _) =>
      case Working(job, _, _, _, _) => AddJobKeepsSound(w, job);
      case Consuming(update, _, _) => AddUpdateKeepsSound(w, update);
    }
  }

  lemma CrashKeepsSound(w: World, pid: nat)
    requires Sound(w) && pid in w.procs
    ensures Sound(AfterCrash(w, pid, w.procs[pid]))
  {
    hide Sound, ProcOk, Redelivered;
    ProcFound(w, pid);
    StopKeepsSound(w, pid);
    RedeliveredKeepsSound(Stop(w, pid), w.procs[pid]);
  }

  lemma DisconnectKeepsSound(w: World, pid: nat)
    requires Sound(w) && pid in w.procs && !w.procs[pid].Dispatching?
    ensures Sound(AfterDisconnect(w, pid, w.procs[pid]))
  {
    var p := w.procs[pid];
    var q := p.(own := false);
    ProcFound(w, pid);
    assert ProcOk(w.limit, w.history, w.rows.Keys, q);
    ProcSet(w.limit, w.history, w.rows.Keys, w.procs, w.next, pid, q);
    var v := w.(procs := w.procs[pid := q]);
    assert Sound(v) by {
      hide ProcsOk, JobsOk, UpdatesOk, OutboxOk, ServerOk, WorkerRowsOk, HeldOk, ProcOk;
    }
    hide Sound, ProcOk, Redelivered;
    RedeliveredKeepsSound(v, p);
  }

  // ---------- Runs ----------

  lemma ActionKeepsSound(w: World, a: Action)
    requires Sound(w)
    ensures Sound(After(w, a))
  {
    hide Sound, AfterRecord, AfterClaim, AfterBegin, AfterDispatch, AfterDeliver, AfterWork, AfterDeliverUpdate, AfterApply,
      AfterSettle, AfterDisconnect, AfterCrash, EventAhead, Ahead, Outbox.ResetAll, Outbox.DeleteExpired, Outbox.CanClaim, CanCall;
    if Enabled(w, a) {
      match a {
        case Record(id, row, deployment, installation) => RecordKeepsSound(w, id, row, deployment, installation);
        case Claim(ids, reported) => ClaimKeepsSound(w, ids, reported);
        case Begin(event) => BeginKeepsSound(w, event);
        case Dispatch(pid, answers, at, delay) => DispatchKeepsSound(w, pid, answers, at, delay);
        case Forget(events) => ForgetKeepsSound(w, events);
        case ResetStuck(lease) => ReconcileKeepsSound(w, lease, 0);
        case DeleteSent(retention) => ReconcileKeepsSound(w, 0, retention);
        case Deliver(job, settle) => DeliverKeepsSound(w, job, settle);
        case Work(pid, env) => WorkKeepsSound(w, pid, env);
        case DeliverUpdate(update) => DeliverUpdateKeepsSound(w, update);
        case ApplyUpdate(pid, db) => ApplyKeepsSound(w, pid, db);
        case SettleUpdate(pid, ok) => SettleKeepsSound(w, pid, ok);
        case Disconnect(pid) => DisconnectKeepsSound(w, pid);
        case Crash(pid) => CrashKeepsSound(w, pid);
        case Wait(elapsed) => WaitKeepsSound(w, elapsed);
      }
    }
  }

  lemma WaitKeepsSound(w: World, elapsed: nat)
    requires Sound(w)
    ensures Sound(w.(now := w.now + elapsed))
  {
    hide ProcsOk, JobsOk, UpdatesOk, OutboxOk, ServerOk, WorkerRowsOk, HeldOk;
  }

  /** Every state that any run reaches is sound. */
  lemma {:induction false} RunIsSound(limit: int, unconfirmed: bool, actions: seq<Action>)
    ensures Sound(Run(Start(limit, unconfirmed), actions))
  {
    if actions != [] {
      hide Sound, After;
      RunIsSound(limit, unconfirmed, actions[..|actions| - 1]);
      ActionKeepsSound(Run(Start(limit, unconfirmed), actions[..|actions| - 1]), actions[|actions| - 1]);
    }
  }
}
