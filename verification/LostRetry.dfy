/**
 The one way to lose a build. The worker publishes a retry without waiting for
 a broker confirm and acks the old message when the publish returns nil; if the
 broker dropped the retry, nothing is left of the job.
 */
module LostRetry {
  import opened Wrappers
  import Contract
  import opened Faults
  import opened Status
  import Outbox
  import Dispatcher
  import Worker
  import Protocol
  import StatusConsumer
  import opened Pipeline
  import opened PipelineSafety
  import opened Frames
  import opened NoLoss

  /** Every event that can be published is unsent, or its job is still there. */
  ghost predicate Accounted(w: World) {
    forall id | id in w.history.recorded && Source(w.history.recorded[id]).Some? ::
      Unsent(w.outbox, id) || Present(w, Contract.JobOf(Source(w.history.recorded[id]).value))
  }

  const SAMPLE := Contract.BuildRequest(
    Contract.VERSION_V1, "e", "d", "p", 1, 1, "u", "aaaaaaaaaaaaaaaaaaaaaaaaaaaaaaaaaaaaaaaa", "", Contract.TRIGGER_MANUAL, 0, 0, "c",
    Contract.Configuration("npm", Some([]), ".", "1"))

  const MESSAGE := Contract.Publishing(SAMPLE).value

  const ROW := Outbox.Row(Outbox.DeployJobs, 1, Contract.Doc(Contract.Encode(SAMPLE)), Outbox.Pending, 0, 0, 0, 0, None)

  // No credential, and a retry that vanishes.
  const VANISHING := Worker.Env(false, Fine, Fine, Queued, false, Fine, false, false, None, Worker.Built, false, None,
                                Fine, Fine, Queued, Fine, Queued, Vanished, true)

  const CLAIMED := Outbox.Claimed(ROW, 0)

  const SENT := Outbox.MarkedSent(CLAIMED, 0)

  const EVENT := Dispatcher.Event(0, CLAIMED)

  const ANSWERS := Dispatcher.EventEnv(Acked, Fine, 0)

  const TRACE: seq<Worker.Effect> :=
    [Worker.FetchCredential(false), Worker.Republish(Contract.Retry(SAMPLE), Vanished), Worker.Ack(true)]

  const SENDING: seq<Dispatcher.Effect> := [Dispatcher.Send(MESSAGE, Acked), Dispatcher.RecordSent(Fine)]

  lemma Sample()
    ensures Contract.Valid(SAMPLE) && Contract.Valid(Contract.Retry(SAMPLE))
    ensures Contract.Publishing(SAMPLE) == Ok(MESSAGE) && Contract.Receive(MESSAGE) == Ok(SAMPLE)
  {
    Contract.RetryStaysPublishable(SAMPLE);
    Contract.PublishedIsReceived(Contract.Retry(SAMPLE));
    Contract.PublishedIsReceived(SAMPLE);
  }

  lemma SampleRow()
    ensures Dispatcher.Message(ROW) == Some(MESSAGE) && Dispatcher.Message(CLAIMED) == Some(MESSAGE)
    ensures Source(ROW) == Some(SAMPLE)
    ensures Dispatcher.Effects(CLAIMED, ANSWERS, 0, 0) == SENDING
  {
    Sample();
    Contract.RoundTrip(SAMPLE);
    hide Contract.Publishing, Contract.Receive, Contract.Unmarshal, Contract.Encode, Contract.Validate;
  }

  lemma SampleTrace(limit: int)
    requires limit > 1
    ensures Worker.Delivery(SAMPLE, limit, VANISHING) == TRACE
  {
    Sample();
    hide Contract.Valid, Contract.Publishing, Contract.Receive, Worker.Process;
    assert Worker.Attempt(SAMPLE, VANISHING) == Worker.Outcome([Worker.FetchCredential(false)], false);
    assert Worker.Closing(SAMPLE, limit, VANISHING, false) == [Worker.Republish(Contract.Retry(SAMPLE), Vanished), Worker.Ack(true)] by {
      assert !Worker.LimitReached(SAMPLE, limit);
      assert Worker.RepublishOutcome(SAMPLE, VANISHING) == Vanished;
      hide Worker.LimitReached, Worker.RepublishOutcome, Contract.Retry;
    }
    hide Worker.Attempt, Worker.Closing;
  }

  lemma RunStep(w: World, actions: seq<Action>, a: Action)
    ensures Run(w, actions + [a]) == After(Run(w, actions), a)
  {
    hide After;
    assert (actions + [a])[..|actions|] == actions;
  }

  // The world around the event's row, the queue and the process at each step.
  function Scene(limit: int, row: Outbox.Row, held: multiset<Dispatcher.Event>, jobs: multiset<Contract.Envelope>,
                 procs: map<nat, Proc>, next: nat, confirmed: set<nat>, lost: set<Contract.BuildRequest>): World
  {
    Start(limit, true).(
      outbox := map[0 := row], held := held, jobs := jobs, procs := procs, next := next,
      server := map["d" := StatusConsumer.Row(Pending, "", "", "i")],
      history := History(map[0 := ROW], confirmed, {}, {}, {}, {}, {}, lost))
  }

  function Delivering(made: seq<Worker.Effect>, c: Protocol.Progress): map<nat, Proc> {
    map[1 := Working(MESSAGE, SAMPLE, made, c, true)]
  }

  lemma RecordScene(limit: int)
    ensures After(Start(limit, true), Record(0, ROW, "d", "i")) == Scene(limit, ROW, multiset{}, multiset{}, map[], 0, {}, {})
  {
    SampleRow();
    hide Source;
  }

  lemma ClaimScene(limit: int)
    ensures After(Scene(limit, ROW, multiset{}, multiset{}, map[], 0, {}, {}), Claim([0], true)) ==
              Scene(limit, CLAIMED, multiset{EVENT}, multiset{}, map[], 0, {}, {})
  {
    var w := Scene(limit, ROW, multiset{}, multiset{}, map[], 0, {}, {});
    assert Outbox.CanClaim(w.outbox, 0, [0]);
    var outbox := Outbox.ClaimAll(w.outbox, [0], 0);
    assert outbox == map[0 := CLAIMED];
    assert EventsOf(outbox, [0]) == multiset{EVENT} by {
      assert [0][1..] == [];
      assert EventsOf(outbox, []) == multiset{};
    }
  }

  lemma BeginScene(limit: int)
    ensures After(Scene(limit, CLAIMED, multiset{EVENT}, multiset{}, map[], 0, {}, {}), Begin(EVENT)) ==
              Scene(limit, CLAIMED, multiset{}, multiset{}, map[0 := Dispatching(EVENT, None)], 1, {}, {})
  {
    assert multiset{EVENT} - multiset{EVENT} == multiset{};
    hide After, CLAIMED, ROW, EVENT;
    BeginAction(Scene(limit, CLAIMED, multiset{EVENT}, multiset{}, map[], 0, {}, {}), EVENT);
  }

  lemma BeginAction(w: World, e: Dispatcher.Event)
    requires e in w.held
    ensures After(w, Begin(e)) == Spawn(w.(held := w.held - multiset{e}), Dispatching(e, None))
  {}

  lemma SampleAhead(published: Option<Confirm>)
    requires published.None? || published == Some(Acked)
    ensures |SENDING| == 2
    ensures EventAhead(EVENT, published, ANSWERS, 0, 0) == (if published.None? then SENDING else SENDING[1..])
  {
    SampleRow();
    assert EVENT.row == CLAIMED && ANSWERS.(confirm := Acked) == ANSWERS;
    hide Dispatcher.Effects, SENDING, EVENT, CLAIMED, ANSWERS;
  }

  lemma DispatchStep(w: World, pid: nat, event: Dispatcher.Event, published: Option<Confirm>, answers: Dispatcher.EventEnv)
    requires pid in w.procs && w.procs[pid] == Dispatching(event, published) && EventAhead(event, published, answers, 0, 0) != []
    ensures After(w, Dispatch(pid, answers, 0, 0)) == AfterDispatch(w, pid, event, EventAhead(event, published, answers, 0, 0))
  {
    hide AfterDispatch, EventAhead;
  }

  // What a dispatcher does next when all goes well.
  lemma DispatchAction(w: World, pid: nat, published: Option<Confirm>)
    requires pid in w.procs && w.procs[pid] == Dispatching(EVENT, published) && (published.None? || published == Some(Acked))
    ensures After(w, Dispatch(pid, ANSWERS, 0, 0)) == AfterDispatch(w, pid, EVENT, if published.None? then SENDING else SENDING[1..])
  {
    hide *;
    SampleAhead(published);
    DispatchStep(w, pid, EVENT, published, ANSWERS);
  }

  lemma SendStep(w: World, pid: nat, event: Dispatcher.Event, ahead: seq<Dispatcher.Effect>, m: Contract.Envelope)
    requires |ahead| > 1 && ahead[0] == Dispatcher.Send(m, Acked)
    ensures AfterDispatch(w, pid, event, ahead) ==
              w.(procs := w.procs[pid := Dispatching(event, Some(Acked))], jobs := w.jobs + multiset{m},
                 history := w.history.(confirmed := w.history.confirmed + {event.id}))
  {}

  lemma RecordStep(w: World, pid: nat, event: Dispatcher.Event, e: Dispatcher.Effect)
    requires !e.Send?
    ensures AfterDispatch(w, pid, event, [e]) ==
              w.(procs := w.procs - {pid}, outbox := Dispatcher.Perform(w.outbox, event.id, e, w.now))
  {
    hide Dispatcher.Perform;
  }

  lemma SendScene(limit: int)
    ensures After(Scene(limit, CLAIMED, multiset{}, multiset{}, map[0 := Dispatching(EVENT, None)], 1, {}, {}),
                  Dispatch(0, ANSWERS, 0, 0)) ==
              Scene(limit, CLAIMED, multiset{}, multiset{MESSAGE}, map[0 := Dispatching(EVENT, Some(Acked))], 1, {0}, {})
  {
    assert SENDING[0] == Dispatcher.Send(MESSAGE, Acked) && |SENDING| > 1 && EVENT.id == 0;
    hide After, AfterDispatch, MESSAGE, CLAIMED, ROW, SENDING, EVENT, ANSWERS;
    var w := Scene(limit, CLAIMED, multiset{}, multiset{}, map[0 := Dispatching(EVENT, None)], 1, {}, {});
    DispatchAction(w, 0, None);
    SendStep(w, 0, EVENT, SENDING, MESSAGE);
    assert multiset{} + multiset{MESSAGE} == multiset{MESSAGE};
  }

  lemma SentScene(limit: int)
    ensures After(Scene(limit, CLAIMED, multiset{}, multiset{MESSAGE}, map[0 := Dispatching(EVENT, Some(Acked))], 1, {0}, {}),
                  Dispatch(0, ANSWERS, 0, 0)) ==
              Scene(limit, SENT, multiset{}, multiset{MESSAGE}, map[], 1, {0}, {})
  {
    assert SENDING[1..] == [Dispatcher.RecordSent(Fine)] && EVENT.id == 0;
    ClaimedIsSent();
    hide After, AfterDispatch, Dispatcher.Perform, SENT, MESSAGE, CLAIMED, ROW, SENDING, EVENT, ANSWERS;
    var w := Scene(limit, CLAIMED, multiset{}, multiset{MESSAGE}, map[0 := Dispatching(EVENT, Some(Acked))], 1, {0}, {});
    DispatchAction(w, 0, Some(Acked));
    RecordStep(w, 0, EVENT, Dispatcher.RecordSent(Fine));
  }

  lemma ClaimedIsSent()
    ensures Dispatcher.Perform(map[0 := CLAIMED], 0, Dispatcher.RecordSent(Fine), 0) == map[0 := SENT]
  {
    hide ROW;
  }

  lemma DeliverScene(limit: int)
    ensures After(Scene(limit, SENT, multiset{}, multiset{MESSAGE}, map[], 1, {0}, {}), Deliver(MESSAGE, true)) ==
              Scene(limit, SENT, multiset{}, multiset{}, Delivering([], Protocol.NO_PROGRESS), 2, {0}, {})
  {
    Sample();
    TakenFromQueue(MESSAGE);
    hide After, Contract.Receive, Contract.Publishing, Contract.Valid, MESSAGE, SAMPLE, SENT;
    DeliverAction(Scene(limit, SENT, multiset{}, multiset{MESSAGE}, map[], 1, {0}, {}), MESSAGE, SAMPLE);
  }

  lemma DeliverAction(w: World, m: Contract.Envelope, req: Contract.BuildRequest)
    requires m in w.jobs && Contract.Receive(m) == Ok(req)
    ensures After(w, Deliver(m, true)) ==
              Spawn(w.(jobs := w.jobs - multiset{m}), Working(m, req, [], Protocol.NO_PROGRESS, true))
  {
    hide Contract.Receive;
  }

  lemma TakenFromQueue(m: Contract.Envelope)
    ensures m in multiset{m} && multiset{m} - multiset{m} == multiset{}
  {}

  // The k-th call of the delivery in hand.
  lemma WorkAction(w: World, k: nat, c: Protocol.Progress)
    requires k < |TRACE| && 1 in w.procs && w.procs[1] == Working(MESSAGE, SAMPLE, TRACE[..k], c, true)
    requires w.limit > 1 && CanCall(w, SAMPLE, TRACE[k])
    ensures TRACE[k..] != [] && After(w, Work(1, VANISHING)) == AfterWork(w, 1, w.procs[1], TRACE[k..])
  {
    SampleTrace(w.limit);
    hide After, AfterWork, CanCall, Worker.Delivery, TRACE, SAMPLE, MESSAGE, VANISHING;
    assert TRACE[..k] <= TRACE && TRACE[k..][0] == TRACE[k];
    assert Ahead(SAMPLE, w.limit, TRACE[..k], VANISHING) == TRACE[k..];
    hide Ahead;
    CallParts(w, Work(1, VANISHING));
  }

  lemma WorkScene(limit: int)
    requires limit > 1
    ensures After(Scene(limit, SENT, multiset{}, multiset{}, Delivering([], Protocol.NO_PROGRESS), 2, {0}, {}), Work(1, VANISHING)) ==
              Scene(limit, SENT, multiset{}, multiset{}, Delivering(TRACE[..1], Protocol.NO_PROGRESS), 2, {0}, {})
  {
    assert TRACE[0] == Worker.FetchCredential(false) && |TRACE| == 3;
    assert TRACE[..0] == [] && [] + [TRACE[0]] == TRACE[..1];
    hide After, MESSAGE, SAMPLE, TRACE, SENT, ROW, VANISHING;
    WorkAction(Scene(limit, SENT, multiset{}, multiset{}, Delivering([], Protocol.NO_PROGRESS), 2, {0}, {}), 0, Protocol.NO_PROGRESS);
  }

  lemma RepublishScene(limit: int)
    requires limit > 1
    ensures After(Scene(limit, SENT, multiset{}, multiset{}, Delivering(TRACE[..1], Protocol.NO_PROGRESS), 2, {0}, {}),
                  Work(1, VANISHING)) ==
              Scene(limit, SENT, multiset{}, multiset{}, Delivering(TRACE[..2], Protocol.NO_PROGRESS.(secured := true)), 2, {0}, {SAMPLE})
  {
    VanishingMoves(limit);
    assert TRACE[1] == Worker.Republish(Contract.Retry(SAMPLE), Vanished) && |TRACE| == 3;
    assert TRACE[..1] + [TRACE[1]] == TRACE[..2];
    assert Contract.JobOf(SAMPLE) == SAMPLE;
    hide After, Contract.Retry, Contract.JobOf, Moved, MESSAGE, SAMPLE, TRACE, SENT, ROW, VANISHING;
    WorkAction(Scene(limit, SENT, multiset{}, multiset{}, Delivering(TRACE[..1], Protocol.NO_PROGRESS), 2, {0}, {}), 1, Protocol.NO_PROGRESS);
  }

  lemma VanishingMoves(limit: int)
    requires limit > 1
    ensures Moved(Protocol.NO_PROGRESS, SAMPLE, limit, Worker.Republish(Contract.Retry(SAMPLE), Vanished)) ==
              Protocol.NO_PROGRESS.(secured := true)
  {
    Sample();
    hide Contract.Valid, Contract.Publishing, Contract.Receive;
  }

  lemma AckScene(limit: int)
    requires limit > 1
    ensures After(Scene(limit, SENT, multiset{}, multiset{},
                        Delivering(TRACE[..2], Protocol.NO_PROGRESS.(secured := true)), 2, {0}, {SAMPLE}), Work(1, VANISHING)) ==
              Scene(limit, SENT, multiset{}, multiset{}, map[], 2, {0}, {SAMPLE})
  {
    assert TRACE[2] == Worker.Ack(true) && |TRACE| == 3;
    var c := Protocol.NO_PROGRESS.(secured := true);
    hide After, MESSAGE, SAMPLE, TRACE, SENT, ROW, Moved, VANISHING;
    WorkAction(Scene(limit, SENT, multiset{}, multiset{}, Delivering(TRACE[..2], c), 2, {0}, {SAMPLE}), 2, c);
  }

  /** The whole run, from the accepted build to nothing. */
  lemma LosingRun(limit: int) returns (actions: seq<Action>)
    requires limit > 1
    ensures Run(Start(limit, true), actions) == Scene(limit, SENT, multiset{}, multiset{}, map[], 2, {0}, {SAMPLE})
  {
    hide After, Scene;
    var w := Start(limit, true);
    actions := [];
    assert Run(w, []) == w;
    RecordScene(limit);
    RunStep(w, actions, Record(0, ROW, "d", "i"));
    actions := actions + [Record(0, ROW, "d", "i")];
    ClaimScene(limit);
    RunStep(w, actions, Claim([0], true));
    actions := actions + [Claim([0], true)];
    BeginScene(limit);
    RunStep(w, actions, Begin(EVENT));
    actions := actions + [Begin(EVENT)];
    SendScene(limit);
    RunStep(w, actions, Dispatch(0, ANSWERS, 0, 0));
    actions := actions + [Dispatch(0, ANSWERS, 0, 0)];
    SentScene(limit);
    RunStep(w, actions, Dispatch(0, ANSWERS, 0, 0));
    actions := actions + [Dispatch(0, ANSWERS, 0, 0)];
    DeliverScene(limit);
    RunStep(w, actions, Deliver(MESSAGE, true));
    actions := actions + [Deliver(MESSAGE, true)];
    WorkScene(limit);
    RunStep(w, actions, Work(1, VANISHING));
    actions := actions + [Work(1, VANISHING)];
    RepublishScene(limit);
    RunStep(w, actions, Work(1, VANISHING));
    actions := actions + [Work(1, VANISHING)];
    AckScene(limit);
    RunStep(w, actions, Work(1, VANISHING));
    actions := actions + [Work(1, VANISHING)];
  }

  lemma NothingLeft(limit: int)
    ensures !Accounted(Scene(limit, SENT, multiset{}, multiset{}, map[], 2, {0}, {SAMPLE}))
  {
    var w := Scene(limit, SENT, multiset{}, multiset{}, map[], 2, {0}, {SAMPLE});
    SampleRow();
    EmptyWorld(w, Contract.JobOf(SAMPLE));
    assert !Unsent(w.outbox, 0) && w.history.recorded == map[0 := ROW];
    hide Source, Contract.JobOf, Present, ROW, SENT, SAMPLE, Scene;
    assert 0 in w.history.recorded && w.history.recorded[0] == ROW;
  }

  lemma EmptyWorld(w: World, job: Contract.BuildRequest)
    requires w.jobs == multiset{} && w.dlq == multiset{} && w.procs == map[] && w.history.done == {}
    ensures !Present(w, job)
  {}

  ghost predicate NeverLoses(limit: int, unconfirmed: bool) {
    forall actions :: Accounted(Run(Start(limit, unconfirmed), actions))
  }

  /**
   No accepted build is lost in any run exactly when a publish that returned
   nil was taken by the broker, or the worker never retries at all.
   */
  lemma NoLossExactly(limit: int, unconfirmed: bool)
    ensures NeverLoses(limit, unconfirmed) <==> !unconfirmed || limit <= 1
  {
    hide Accounted, Run;
    if unconfirmed && limit > 1 {
      var actions := LosingRun(limit);
      NothingLeft(limit);
      assert !Accounted(Run(Start(limit, unconfirmed), actions));
    } else {
      forall actions ensures Accounted(Run(Start(limit, unconfirmed), actions)) {
        RunKeepsEvents(limit, unconfirmed, actions);
        KeptIsAccounted(Run(Start(limit, unconfirmed), actions));
      }
    }
  }

  lemma KeptIsAccounted(w: World)
    requires AllKept(w) && w.history.lost == {}
    ensures Accounted(w)
  {
    hide Source, Contract.JobOf, Present;
    forall id | id in w.history.recorded && Source(w.history.recorded[id]).Some?
      ensures Unsent(w.outbox, id) || Present(w, Contract.JobOf(Source(w.history.recorded[id]).value))
    {
      assert Kept(w, id);
    }
  }
}
