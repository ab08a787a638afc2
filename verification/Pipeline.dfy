/**
 The whole deploy pipeline as one state machine: outbox, broker, worker table
 and server table, and any number of dispatchers, workers and status consumers
 that take their next call in any interleaving. What a call meets is chosen when
 it is made. A process may crash before any call, or lose its broker session and
 go on while its delivery is delivered again.
 */
module Pipeline {
  import opened Wrappers
  import Contract
  import opened Faults
  import opened Status
  import Outbox
  import Dispatcher
  import Worker
  import Protocol
  import StatusConsumer
  import Credentials

  datatype Proc =
    // A dispatcher with one event in hand, and how its publish ended once it was made.
    | Dispatching(event: Dispatcher.Event, published: Option<Confirm>)
    // A worker with one delivery and the calls it has made for it.
    | Working(job: Contract.Envelope, request: Contract.BuildRequest, made: seq<Worker.Effect>, progress: Protocol.Progress, own: bool)
    // The status consumer with one delivery.
    | Consuming(update: Update, results: seq<StatusConsumer.ApplyResult>, own: bool)
    // own: the delivery can be settled; otherwise its session is lost and the broker has requeued it.

  // What has ever happened; nothing in the system reads it.
  datatype History = History(
    recorded: map<nat, Outbox.Row>,   // accepted outbox rows as they were inserted
    confirmed: set<nat>,              // events of which the broker acked a publish
    inserted: set<string>,            // deployments whose worker row was inserted
    finished: set<string>,            // deployments whose worker row was marked finished
    gaveUp: set<string>,              // deployments that failed at the retry limit
    announced: set<(string, Status)>, // final words that reached deploy.status
    done: set<Contract.BuildRequest>, // jobs a worker completed
    lost: set<Contract.BuildRequest>) // jobs whose retry vanished behind a publish that returned nil

  datatype World = World(
    limit: int,                       // the retry limit in force: MAX_RETRIES_COUNT, or 3 when that is 0
    unconfirmed: bool,                // can an unconfirmed publish vanish
    now: int,
    outbox: Outbox.Table,
    held: multiset<Dispatcher.Event>, // claimed events in dispatchers' memory
    jobs: multiset<Contract.Envelope>,
    dlq: multiset<Contract.Envelope>,
    rows: Worker.Rows,
    updates: multiset<Update>,
    updatesDlq: multiset<Update>,
    server: StatusConsumer.Rows,
    procs: map<nat, Proc>,
    next: nat,
    history: History)

  function Start(limit: int, unconfirmed: bool): World {
    World(limit, unconfirmed, 0, map[], multiset{}, multiset{}, multiset{}, map[], multiset{}, multiset{}, map[], map[], 0,
          History(map[], {}, {}, {}, {}, {}, {}, {}))
  }

  datatype Action =
    | Record(id: nat, row: Outbox.Row, deployment: string, installation: string)
    | Claim(ids: seq<nat>, reported: bool)
    | Begin(event: Dispatcher.Event)
    | Dispatch(pid: nat, answers: Dispatcher.EventEnv, at: int, delay: int)
    | Forget(events: multiset<Dispatcher.Event>)
    | ResetStuck(lease: int)
    | DeleteSent(retention: int)
    | Deliver(job: Contract.Envelope, settle: bool)
    | Work(pid: nat, env: Worker.Env)
    | DeliverUpdate(update: Update)
    | ApplyUpdate(pid: nat, db: Db)
    | SettleUpdate(pid: nat, ok: bool)
    | Disconnect(pid: nat)
    | Crash(pid: nat)
    | Wait(elapsed: nat)

  // ---------- One action ----------

  predicate Running(w: World, pid: nat) { pid in w.procs }

  /** The calls that a dispatcher has still to make for its event, if it gets these answers. */
  function EventAhead(event: Dispatcher.Event, published: Option<Confirm>, answers: Dispatcher.EventEnv, at: int, delay: int): seq<Dispatcher.Effect> {
    match published
    case None => Dispatcher.Effects(event.row, answers, at, delay)
    case Some(confirm) => Dispatcher.Effects(event.row, answers.(confirm := confirm), at, delay)[1..]
  }

  /** The calls that a worker has still to make, if this is its surroundings; none if they gave other answers so far. */
  function Ahead(req: Contract.BuildRequest, limit: int, made: seq<Worker.Effect>, env: Worker.Env): seq<Worker.Effect> {
    var calls := Worker.Delivery(req, limit, env);
    if made <= calls then calls[|made|..] else []
  }

  /** A read sees what is there, and a credential is granted only by a row that allows it. */
  predicate CanCall(w: World, req: Contract.BuildRequest, e: Worker.Effect) {
    match e
    case FetchCredential(granted) => granted ==> Credentials.Available(w.server, req.deploymentId)
    case ReadTag(found) => found ==> req.deploymentId in w.rows
    case Republish(_, p) => p.Vanished? ==> w.unconfirmed
    case _ => true
  }

  ghost predicate Enabled(w: World, a: Action) {
    match a
    case Record(id, row, deployment, _) =>
      && id !in w.history.recorded && row.state.Pending? && row.attempts == 0
      && deployment !in w.server && (Source(row).Some? ==> Source(row).value.deploymentId == deployment)
    case Claim(ids, _) => Outbox.CanClaim(w.outbox, w.now, ids)
    case Begin(event) => event in w.held
    case Dispatch(pid, answers, at, delay) =>
      Running(w, pid) && w.procs[pid].Dispatching? && EventAhead(w.procs[pid].event, w.procs[pid].published, answers, at, delay) != []
    case Forget(events) => events <= w.held
    case ResetStuck(lease) => lease >= Outbox.CLAIM_LEASE
    case DeleteSent(retention) => retention > 0
    case Deliver(job, _) => job in w.jobs
    case Work(pid, env) =>
      && Running(w, pid) && w.procs[pid].Working?
      && var ahead := Ahead(w.procs[pid].request, w.limit, w.procs[pid].made, env);
         ahead != [] && CanCall(w, w.procs[pid].request, ahead[0])
    case DeliverUpdate(update) => update in w.updates
    case ApplyUpdate(pid, _) => Running(w, pid) && w.procs[pid].Consuming? && StatusConsumer.Next(w.procs[pid].results).Apply?
    case SettleUpdate(pid, _) => Running(w, pid) && w.procs[pid].Consuming? && !StatusConsumer.Next(w.procs[pid].results).Apply?
    case Disconnect(pid) => Running(w, pid) && !w.procs[pid].Dispatching? && w.procs[pid].own
    case Crash(pid) => Running(w, pid)
    case Wait(_) => true
  }

  function Spawn(w: World, p: Proc): World { w.(procs := w.procs[w.next := p], next := w.next + 1) }

  function Stop(w: World, pid: nat): World { w.(procs := w.procs - {pid}) }

  function AfterRecord(w: World, id: nat, row: Outbox.Row, deployment: string, installation: string): World {
    w.(outbox := w.outbox[id := row],
       server := w.server[deployment := StatusConsumer.Row(Pending, "", "", installation)],
       history := w.history.(recorded := w.history.recorded[id := row]))
  }

  function EventsOf(rows: Outbox.Table, ids: seq<nat>): multiset<Dispatcher.Event> {
    if ids == [] then multiset{}
    else EventsOf(rows, ids[1..]) + if ids[0] in rows then multiset{Dispatcher.Event(ids[0], rows[ids[0]])} else multiset{}
  }

  // reported: whether the claim statement's result reached the dispatcher.
  function AfterClaim(w: World, ids: seq<nat>, reported: bool): World {
    var outbox := Outbox.ClaimAll(w.outbox, ids, w.now);
    w.(outbox := outbox, held := w.held + if reported then EventsOf(outbox, ids) else multiset{})
  }

  function AfterBegin(w: World, event: Dispatcher.Event): World {
    Spawn(w.(held := w.held - multiset{event}), Dispatching(event, None))
  }

  function Confirmed(w: World, id: nat, confirm: Confirm): World {
    if confirm.Acked? then w.(history := w.history.(confirmed := w.history.confirmed + {id})) else w
  }

  // The process after the first of these calls: it ends with the last one.
  function Dispatched(w: World, pid: nat, event: Dispatcher.Event, ahead: seq<Dispatcher.Effect>): World
    requires ahead != []
  {
    if ahead[0].Send? && |ahead| > 1 then w.(procs := w.procs[pid := Dispatching(event, Some(ahead[0].confirm))]) else Stop(w, pid)
  }

  function AfterDispatch(w: World, pid: nat, event: Dispatcher.Event, ahead: seq<Dispatcher.Effect>): World
    requires ahead != []
  {
    match ahead[0]
    case Send(message, confirm) =>
      var v := Dispatched(Confirmed(w, event.id, confirm), pid, event, ahead);
      if confirm.Arrived() then AddJob(v, message) else v
    case _ =>
      var v := Dispatched(w, pid, event, ahead);
      v.(outbox := Dispatcher.Perform(v.outbox, event.id, ahead[0], v.now))
  }

  function AfterDeliver(w: World, job: Contract.Envelope, settle: bool): World {
    var v := w.(jobs := w.jobs - multiset{job});
    match Contract.Receive(job)
    case Err(_) => if settle then AddDead(v, job) else w
    case Ok(req) => Spawn(v, Working(job, req, [], Protocol.NO_PROGRESS, true))
  }

  function WorkHistory(h: History, rows: Worker.Rows, req: Contract.BuildRequest, e: Worker.Effect): History {
    match e
    case Insert(db) => if db.Took() then h.(inserted := h.inserted + {req.deploymentId}) else h
    case MarkFinished(_, db) =>
      if db.Took() && req.deploymentId in rows then h.(finished := h.finished + {req.deploymentId}) else h
    case GaveUp => h.(gaveUp := h.gaveUp + {req.deploymentId})
    case Announce(update, p) =>
      if p.Arrived() then h.(announced := h.announced + {(update.deploymentId, update.status)}) else h
    case Completed => h.(done := h.done + {Contract.JobOf(req)})
    case Republish(_, Vanished) => h.(lost := h.lost + {Contract.JobOf(req)})
    case _ => h
  }

  function Moved(c: Protocol.Progress, req: Contract.BuildRequest, limit: int, e: Worker.Effect): Protocol.Progress {
    match Protocol.Advance(req, limit, c, e) case Some(d) => d case None => c
  }

  // The tables and the history after a call.
  function Called(w: World, req: Contract.BuildRequest, e: Worker.Effect): World {
    w.(history := WorkHistory(w.history, w.rows, req, e), rows := Worker.PerformRows(w.rows, req, e))
  }

  // A worker's process after a call that is not its last.
  function Continued(p: Proc, limit: int, e: Worker.Effect): Proc
    requires p.Working?
  {
    p.(made := p.made + [e], progress := Moved(p.progress, p.request, limit, e))
  }

  // The process after the first of these calls: it ends with the settlement.
  function Worked(w: World, pid: nat, p: Proc, ahead: seq<Worker.Effect>): World
    requires p.Working? && ahead != []
  {
    if |ahead| == 1 then Stop(w, pid)
    else w.(procs := w.procs[pid := Continued(p, w.limit, ahead[0])])
  }

  function AddJob(w: World, m: Contract.Envelope): World { w.(jobs := w.jobs + multiset{m}) }

  function AddDead(w: World, m: Contract.Envelope): World { w.(dlq := w.dlq + multiset{m}) }

  function AddUpdate(w: World, u: Update): World { w.(updates := w.updates + multiset{u}) }

  function AddDeadUpdate(w: World, u: Update): World { w.(updatesDlq := w.updatesDlq + multiset{u}) }

  // The queues after a call; only an own delivery can be settled.
  function Enqueued(w: World, job: Contract.Envelope, own: bool, e: Worker.Effect): World {
    match e
    case Announce(update, p) => if p.Arrived() then AddUpdate(w, update) else w
    case Republish(again, p) =>
      if p.Arrived() && Contract.Publishing(again).Ok? then AddJob(w, Contract.Publishing(again).value) else w
    case Ack(ok) => if ok || !own then w else AddJob(w, job)
    case Discard(ok) => if !own then w else if ok then AddDead(w, job) else AddJob(w, job)
    case Requeue(_) => if own then AddJob(w, job) else w
    case _ => w
  }

  function AfterWork(w: World, pid: nat, p: Proc, ahead: seq<Worker.Effect>): World
    requires p.Working? && ahead != []
  {
    Enqueued(Worked(Called(w, p.request, ahead[0]), pid, p, ahead), p.job, p.own, ahead[0])
  }

  function ParamsOf(u: Update): StatusConsumer.Params {
    StatusConsumer.Params(u.deploymentId, u.status, u.outputUrl, Text(u.reason))
  }

  function TakeUpdate(w: World, u: Update): World { w.(updates := w.updates - multiset{u}) }

  function AfterDeliverUpdate(w: World, update: Update): World {
    var v := TakeUpdate(w, update);
    if StatusConsumer.Decode(Contract.Doc(StatusConsumer.Encode(ParamsOf(update)))).None?
    then AddDeadUpdate(v, update)
    else Spawn(v, Consuming(update, [], true))
  }

  function AfterApply(w: World, pid: nat, c: Proc, db: Db): World
    requires c.Consuming?
  {
    var p := ParamsOf(c.update);
    w.(procs := w.procs[pid := c.(results := c.results + [StatusConsumer.Reported(w.server, p, db)])],
       server := StatusConsumer.Applied(w.server, p, db))
  }

  function AfterSettle(w: World, pid: nat, c: Proc, ok: bool): World
    requires c.Consuming?
  {
    var v := Stop(w, pid);
    if !c.own then v
    else if !ok then AddUpdate(v, c.update)
    else if StatusConsumer.Next(c.results).Acknowledge? then v
    else AddDeadUpdate(v, c.update)
  }

  /** The broker delivers again what a lost session had not settled. */
  function Redelivered(w: World, p: Proc): World {
    match p
    case Dispatching(_, _) => w
    case Working(job, _, _, _, own) => if own then AddJob(w, job) else w
    case Consuming(update, _, own) => if own then AddUpdate(w, update) else w
  }

  function AfterCrash(w: World, pid: nat, p: Proc): World { Redelivered(Stop(w, pid), p) }

  /** The process goes on without its session. */
  function AfterDisconnect(w: World, pid: nat, p: Proc): World
    requires !p.Dispatching?
  {
    Redelivered(w.(procs := w.procs[pid := p.(own := false)]), p)
  }

  /** An action that is not enabled changes nothing. */
  ghost function After(w: World, a: Action): World {
    if !Enabled(w, a) then w
    else match a
      case Record(id, row, deployment, installation) => AfterRecord(w, id, row, deployment, installation)
      case Claim(ids, reported) => AfterClaim(w, ids, reported)
      case Begin(event) => AfterBegin(w, event)
      case Dispatch(pid, answers, at, delay) =>
        var p := w.procs[pid];
        AfterDispatch(w, pid, p.event, EventAhead(p.event, p.published, answers, at, delay))
      case Forget(events) => w.(held := w.held - events)
      case ResetStuck(lease) => w.(outbox := Outbox.ResetAll(w.outbox, w.now, lease))
      case DeleteSent(retention) => w.(outbox := Outbox.DeleteExpired(w.outbox, w.now, retention))
      case Deliver(job, settle) => AfterDeliver(w, job, settle)
      case Work(pid, env) => var p := w.procs[pid]; AfterWork(w, pid, p, Ahead(p.request, w.limit, p.made, env))
      case DeliverUpdate(update) => AfterDeliverUpdate(w, update)
      case ApplyUpdate(pid, db) => AfterApply(w, pid, w.procs[pid], db)
      case SettleUpdate(pid, ok) => AfterSettle(w, pid, w.procs[pid], ok)
      case Disconnect(pid) => AfterDisconnect(w, pid, w.procs[pid])
      case Crash(pid) => AfterCrash(w, pid, w.procs[pid])
      case Wait(elapsed) => w.(now := w.now + elapsed)
  }

  /** A run: any actions in any order. */
  ghost function Run(w: World, actions: seq<Action>): World {
    if actions == [] then w else After(Run(w, actions[..|actions| - 1]), actions[|actions| - 1])
  }

  // ---------- What holds in every state ----------

  // The request a recorded row stands for.
  function Source(r: Outbox.Row): Option<Contract.BuildRequest> {
    match Dispatcher.Message(r)
    case None => None
    case Some(m) => (match Contract.Receive(m) case Ok(req) => Some(req) case Err(_) => None)
  }

  /** A well-formed message that repeats a recorded request, but for the retry count. */
  ghost predicate Genuine(h: History, m: Contract.Envelope) {
    && Contract.Receive(m).Ok?
    && Contract.Publishing(Contract.Receive(m).value) == Ok(m)
    && exists id | id in h.recorded ::
         Source(h.recorded[id]).Some? && Contract.JobOf(Source(h.recorded[id]).value) == Contract.JobOf(Contract.Receive(m).value)
  }

  predicate Truthful(h: History, id: string, s: Status) {
    && !s.Failed?
    && (s.Success? ==> id in h.finished && (id, s) in h.announced)
    && (s.Canceled? ==> id in h.gaveUp && (id, s) in h.announced)
  }

  // What a worker believes it has achieved really happened; ids are those with a worker row.
  predicate Achieved(h: History, ids: set<string>, id: string, c: Protocol.Progress) {
    && (c.seen ==> id in ids)
    && (c.finished ==> id in h.finished)
    && (c.gaveUp ==> id in h.gaveUp)
  }

  predicate SameEvent(h: History, id: nat, r: Outbox.Row) {
    id in h.recorded && Dispatcher.Message(r) == Dispatcher.Message(h.recorded[id])
  }

  // A dispatched event, and the publish of it.
  predicate EventInOrder(h: History, event: Dispatcher.Event, published: Option<Confirm>) {
    SameEvent(h, event.id, event.row) && (published == Some(Acked) ==> event.id in h.confirmed)
  }

  ghost predicate WorkerInOrder(limit: int, h: History, ids: set<string>, job: Contract.Envelope, req: Contract.BuildRequest,
                                made: seq<Worker.Effect>, c: Protocol.Progress)
  {
    && Genuine(h, job) && Contract.Receive(job) == Ok(req)
    && Protocol.Walk(req, limit, Protocol.NO_PROGRESS, made) == Some(c) && Achieved(h, ids, req.deploymentId, c)
  }

  predicate UpdateOk(h: History, u: Update) {
    Truthful(h, u.deploymentId, u.status) && !u.status.Pending?
  }

  ghost predicate ProcOk(limit: int, h: History, ids: set<string>, p: Proc) {
    match p
    case Dispatching(event, published) => EventInOrder(h, event, published)
    case Working(job, req, made, c, _) => WorkerInOrder(limit, h, ids, job, req, made, c)
    case Consuming(update, _, _) => UpdateOk(h, update)
  }

  predicate RowOk(h: History, id: nat, r: Outbox.Row) {
    SameEvent(h, id, r) && (r.state.Sent? ==> id in h.confirmed)
  }

  // ---------- The same for each part of the world ----------

  ghost predicate ProcsOk(limit: int, h: History, ids: set<string>, procs: map<nat, Proc>, next: nat) {
    forall pid | pid in procs :: ProcOk(limit, h, ids, procs[pid]) && pid < next
  }

  ghost predicate JobsOk(h: History, jobs: multiset<Contract.Envelope>) { forall m | m in jobs :: Genuine(h, m) }

  ghost predicate UpdatesOk(h: History, updates: multiset<Update>) { forall u | u in updates :: UpdateOk(h, u) }

  ghost predicate ServerOk(h: History, server: StatusConsumer.Rows) {
    forall id | id in server :: Truthful(h, id, server[id].status)
  }

  /** A row that is gone was confirmed, like one that is sent. */
  ghost predicate OutboxOk(h: History, outbox: Outbox.Table) {
    && (forall id | id in outbox :: RowOk(h, id, outbox[id]))
    && (forall id | id in h.recorded && id !in outbox :: id in h.confirmed)
  }

  ghost predicate HeldOk(h: History, held: multiset<Dispatcher.Event>) { forall e | e in held :: SameEvent(h, e.id, e.row) }

  ghost predicate WorkerRowsOk(h: History, ids: set<string>) {
    ids <= h.inserted && h.finished <= ids && forall job | job in h.done :: job.deploymentId in h.finished
  }

  ghost predicate Sound(w: World) {
    && ProcsOk(w.limit, w.history, w.rows.Keys, w.procs, w.next)
    && JobsOk(w.history, w.jobs) && JobsOk(w.history, w.dlq)
    && UpdatesOk(w.history, w.updates) && UpdatesOk(w.history, w.updatesDlq)
    && ServerOk(w.history, w.server)
    && OutboxOk(w.history, w.outbox) && HeldOk(w.history, w.held)
    && WorkerRowsOk(w.history, w.rows.Keys)
  }
}
