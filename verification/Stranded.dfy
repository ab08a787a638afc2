/**
 Which recorded builds can still be sent. Recovering an abandoned claim keeps
 the attempt counter, so a row whose last claim was abandoned goes back to
 pending with no attempt left: it is neither sent nor dead-lettered any more.
 */
module Stranded {
  import opened Wrappers
  import opened Faults
  import Outbox
  import Dispatcher
  import Worker
  import Contract
  import opened Pipeline
  import opened PipelineSafety
  import opened Frames
  import opened NoLoss
  import opened LostRetry
  import opened Guarantees

  const PAUSE: nat := Outbox.CLAIM_LEASE + 1

  // The sample row after k claims, the last of them now.
  function Abandoned(k: nat, now: int): Outbox.Row {
    ROW.(state := if k == 0 then Outbox.Pending else Outbox.Publishing, attempts := k,
         availableAt := if k == 0 then 0 else now, updatedAt := if k == 0 then 0 else now)
  }

  // Nothing but the row, at this time.
  function Alone(limit: int, unconfirmed: bool, row: Outbox.Row, now: int): World {
    Scene(limit, row, multiset{}, multiset{}, map[], 0, {}, {}).(unconfirmed := unconfirmed, now := now)
  }

  lemma Recorded(limit: int, unconfirmed: bool)
    ensures After(Start(limit, unconfirmed), Record(0, ROW, "d", "i")) == Alone(limit, unconfirmed, Abandoned(0, 0), 0)
  {
    SampleRow();
    hide Source;
  }

  // A dispatcher claims the row and dies before it learns of it.
  lemma ClaimAndDie(limit: int, unconfirmed: bool, k: nat, now: int)
    requires k < Outbox.MAX_ATTEMPTS && now >= 0
    ensures After(Alone(limit, unconfirmed, Abandoned(k, now - PAUSE), now), Claim([0], false)) ==
              Alone(limit, unconfirmed, Abandoned(k + 1, now), now)
  {
    var w := Alone(limit, unconfirmed, Abandoned(k, now - PAUSE), now);
    assert Outbox.CanClaim(w.outbox, now, [0]);
    assert Outbox.ClaimAll(w.outbox, [0], now) == map[0 := Abandoned(k + 1, now)];
    hide Outbox.CanClaim, Outbox.ClaimAll, Abandoned, EventsOf;
    assert w.held + multiset{} == w.held;
  }

  lemma Pause(limit: int, unconfirmed: bool, row: Outbox.Row, now: int)
    ensures After(Alone(limit, unconfirmed, row, now), Wait(PAUSE)) == Alone(limit, unconfirmed, row, now + PAUSE)
  {}

  lemma Recover(limit: int, unconfirmed: bool, k: nat, now: int)
    requires k > 0
    ensures var w := After(Alone(limit, unconfirmed, Abandoned(k, now - PAUSE), now), ResetStuck(Outbox.CLAIM_LEASE));
            0 in w.outbox && w.outbox[0].state.Pending? && w.outbox[0].attempts == k && w.history.recorded == map[0 := ROW]
  {}

  lemma {:induction false} AbandonedClaims(limit: int, unconfirmed: bool, k: nat) returns (actions: seq<Action>, now: nat)
    requires k <= Outbox.MAX_ATTEMPTS
    ensures Run(Start(limit, unconfirmed), actions) == Alone(limit, unconfirmed, Abandoned(k, now - PAUSE), now)
  {
    hide After, Alone;
    var start := Start(limit, unconfirmed);
    if k == 0 {
      Recorded(limit, unconfirmed);
      RunStep(start, [], Record(0, ROW, "d", "i"));
      actions, now := [] + [Record(0, ROW, "d", "i")], 0;
      assert Abandoned(0, 0) == Abandoned(0, now - PAUSE);
    } else {
      var shorter, at := AbandonedClaims(limit, unconfirmed, k - 1);
      ClaimAndDie(limit, unconfirmed, k - 1, at);
      RunStep(start, shorter, Claim([0], false));
      Pause(limit, unconfirmed, Abandoned(k, at), at);
      RunStep(start, shorter + [Claim([0], false)], Wait(PAUSE));
      actions, now := shorter + [Claim([0], false)] + [Wait(PAUSE)], at + PAUSE;
    }
  }

  // ---------- Which rows can still be sent ----------

  /** Some continuation records the event as sent. */
  ghost predicate CanBeSent(w: World, id: nat) {
    exists actions :: SentIn(Run(w, actions), id)
  }

  predicate SentIn(w: World, id: nat) { id in w.outbox && w.outbox[id].state.Sent? }

  // A dispatcher that has not published the event yet, or still has to record its ack.
  predicate MayRecord(p: Proc, id: nat) {
    p.Dispatching? && p.event.id == id && (p.published.None? || p.published == Some(Acked))
  }

  /** Some dispatcher has the event and has heard of no failure. */
  ghost predicate Carried(w: World, id: nat) {
    (exists e | e in w.held :: e.id == id) || exists pid | pid in w.procs :: MayRecord(w.procs[pid], id)
  }

  /** An attempt is left, or the last one is still under way. */
  ghost predicate Hopeful(w: World, id: nat)
    requires id in w.outbox
  {
    var r := w.outbox[id];
    r.state.Sent? || (!r.state.DeadLetter? && r.attempts < Outbox.MAX_ATTEMPTS) || (r.state.Publishing? && Carried(w, id))
  }

  lemma {:induction false} RunCons(w: World, a: Action, more: seq<Action>)
    ensures Run(w, [a] + more) == Run(After(w, a), more)
  {
    hide After;
    if more == [] {
      RunStep(w, [], a);
      assert [] + [a] == [a] + more;
    } else {
      var shorter, last := more[..|more| - 1], more[|more| - 1];
      RunCons(w, a, shorter);
      RunStep(w, [a] + shorter, last);
      RunStep(After(w, a), shorter, last);
      assert [a] + more == [a] + shorter + [last] && more == shorter + [last];
    }
  }

  lemma SentLater(w: World, a: Action, id: nat)
    requires CanBeSent(After(w, a), id)
    ensures CanBeSent(w, id)
  {
    hide After, Run, SentIn;
    var more :| SentIn(Run(After(w, a), more), id);
    RunCons(w, a, more);
  }

  lemma SentNow(w: World, id: nat)
    requires SentIn(w, id)
    ensures CanBeSent(w, id)
  {
    assert Run(w, []) == w;
  }

  // ---------- Sending what can be sent ----------

  lemma SmoothAhead(event: Dispatcher.Event, published: Option<Confirm>)
    requires Dispatcher.Message(event.row).Some? && (published.None? || published == Some(Acked))
    ensures EventAhead(event, published, ANSWERS, 0, 0) ==
              if published.None? then [Dispatcher.Send(Dispatcher.Message(event.row).value, Acked), Dispatcher.RecordSent(Fine)]
              else [Dispatcher.RecordSent(Fine)]
  {
    hide Dispatcher.Message;
  }

  // The next step of a dispatcher when all goes well.
  lemma DispatchOne(w: World, pid: nat, id: nat)
    requires pid in w.procs && MayRecord(w.procs[pid], id) && Dispatcher.Message(w.procs[pid].event.row).Some?
    ensures var p, w' := w.procs[pid], After(w, Dispatch(pid, ANSWERS, 0, 0));
            if p.published.None?
            then w'.outbox == w.outbox && pid in w'.procs && w'.procs[pid] == Dispatching(p.event, Some(Acked))
            else w'.outbox == Dispatcher.Perform(w.outbox, id, Dispatcher.RecordSent(Fine), w.now)
  {
    hide After, AfterDispatch, EventAhead, Dispatcher.Perform, Dispatcher.Message;
    var p, a := w.procs[pid], Dispatch(pid, ANSWERS, 0, 0);
    var ahead := EventAhead(p.event, p.published, ANSWERS, 0, 0);
    SmoothAhead(p.event, p.published);
    CallParts(w, a);
    DispatchParts(w, pid, p.event, ahead);
  }

  lemma RecordedAsSent(rows: Outbox.Table, id: nat, now: int)
    requires id in rows && rows[id].state.Publishing?
    ensures var after := Dispatcher.Perform(rows, id, Dispatcher.RecordSent(Fine), now); id in after && after[id].state.Sent?
  {}

  /** A dispatcher on its way finishes. */
  lemma FromProc(w: World, pid: nat, id: nat)
    requires pid in w.procs && MayRecord(w.procs[pid], id) && Dispatcher.Message(w.procs[pid].event.row).Some?
    requires id in w.outbox && w.outbox[id].state.Publishing?
    ensures CanBeSent(w, id)
    decreases w.procs[pid].published.None?
  {
    hide After, CanBeSent, Dispatcher.Perform, Dispatcher.Message;
    var w1 := After(w, Dispatch(pid, ANSWERS, 0, 0));
    DispatchOne(w, pid, id);
    if w.procs[pid].published.None? {
      FromProc(w1, pid, id);
    } else {
      RecordedAsSent(w.outbox, id, w.now);
      SentNow(w1, id);
    }
    SentLater(w, Dispatch(pid, ANSWERS, 0, 0), id);
  }

  lemma BeginOne(w: World, e: Dispatcher.Event)
    requires e in w.held
    ensures var w' := After(w, Begin(e)); w'.outbox == w.outbox && w.next in w'.procs && w'.procs[w.next] == Dispatching(e, None)
  {}

  /** An event in a dispatcher's memory can still be published. */
  lemma FromHeld(w: World, e: Dispatcher.Event)
    requires e in w.held && Dispatcher.Message(e.row).Some? && e.id in w.outbox && w.outbox[e.id].state.Publishing?
    ensures CanBeSent(w, e.id)
  {
    hide After, CanBeSent, Dispatcher.Message;
    BeginOne(w, e);
    FromProc(After(w, Begin(e)), w.next, e.id);
    SentLater(w, Begin(e), e.id);
  }

  lemma ClaimOne(w: World, id: nat, reported: bool)
    requires id in w.outbox && Outbox.Claimable(w.outbox[id], w.now)
    ensures var w', row := After(w, Claim([id], reported)), Outbox.Claimed(w.outbox[id], w.now);
            && id in w'.outbox && w'.outbox[id] == row && (reported ==> Dispatcher.Event(id, row) in w'.held)
  {
    assert Outbox.CanClaim(w.outbox, w.now, [id]);
    var outbox := Outbox.ClaimAll(w.outbox, [id], w.now);
    assert id in outbox && outbox[id] == Outbox.Claimed(w.outbox[id], w.now);
    assert Dispatcher.Event(id, outbox[id]) in EventsOf(outbox, [id]);
    hide Outbox.CanClaim, Outbox.ClaimAll, EventsOf, Outbox.Claimed;
  }

  // How long to wait until the row can be claimed.
  function Patience(r: Outbox.Row, now: int): (d: nat)
    requires r.attempts < Outbox.MAX_ATTEMPTS && !r.state.Sent? && !r.state.DeadLetter?
    ensures Outbox.Claimable(r, now + d)
  {
    var until := if r.state.Publishing? then r.updatedAt + Outbox.CLAIM_LEASE + 1 else r.availableAt;
    if until <= now then 0 else until - now
  }

  lemma WaitOne(w: World, d: nat)
    ensures After(w, Wait(d)) == w.(now := w.now + d)
  {}

  /** While an attempt is left the row can be claimed and sent. */
  lemma FromAttempt(w: World, id: nat)
    requires id in w.outbox && Dispatcher.Message(w.outbox[id]).Some?
    requires !w.outbox[id].state.Sent? && !w.outbox[id].state.DeadLetter? && w.outbox[id].attempts < Outbox.MAX_ATTEMPTS
    ensures CanBeSent(w, id)
  {
    var row, d := w.outbox[id], Patience(w.outbox[id], w.now);
    var w1 := After(w, Wait(d));
    WaitOne(w, d);
    var claimed := Outbox.Claimed(row, w1.now);
    SamePayload(row, claimed);
    ClaimOne(w1, id, true);
    hide After, CanBeSent, Dispatcher.Message, Outbox.Claimable;
    FromHeld(After(w1, Claim([id], true)), Dispatcher.Event(id, claimed));
    SentLater(w1, Claim([id], true), id);
    SentLater(w, Wait(d), id);
  }

  lemma SoundParts(w: World, id: nat)
    requires Sound(w) && id in w.outbox
    ensures id in w.history.recorded && Dispatcher.Message(w.outbox[id]) == Dispatcher.Message(w.history.recorded[id])
    ensures forall e | e in w.held :: SameEvent(w.history, e.id, e.row)
  {
    hide ProcsOk, JobsOk, UpdatesOk, ServerOk, WorkerRowsOk, Dispatcher.Message;
    assert RowOk(w.history, id, w.outbox[id]);
  }

  lemma SourceIsMessage(r: Outbox.Row)
    ensures Source(r).Some? ==> Dispatcher.Message(r).Some?
  {
    hide Dispatcher.Message, Contract.Receive;
  }

  // A sound world and a row of it whose payload can be published.
  ghost predicate Publishable(w: World, id: nat) {
    Sound(w) && id in w.outbox && id in w.history.recorded && Source(w.history.recorded[id]).Some?
  }

  lemma PublishableMessages(w: World, id: nat)
    requires Publishable(w, id)
    ensures Dispatcher.Message(w.outbox[id]).Some?
    ensures forall e | e in w.held && e.id == id :: Dispatcher.Message(e.row).Some?
    ensures forall pid | pid in w.procs && MayRecord(w.procs[pid], id) :: Dispatcher.Message(w.procs[pid].event.row).Some?
  {
    SoundParts(w, id);
    forall pid | pid in w.procs && MayRecord(w.procs[pid], id) ensures Dispatcher.Message(w.procs[pid].event.row).Some? {
      hide Sound, Dispatcher.Message, Source;
      ProcFound(w, pid);
    }
    SourceIsMessage(w.history.recorded[id]);
    hide Sound, Dispatcher.Message, Source;
  }

  lemma CarriedCanBeSent(w: World, id: nat)
    requires Publishable(w, id) && w.outbox[id].state.Publishing? && Carried(w, id)
    ensures CanBeSent(w, id)
  {
    PublishableMessages(w, id);
    hide CanBeSent, Dispatcher.Message, Sound, Source, MayRecord;
    if e :| e in w.held && e.id == id {
      FromHeld(w, e);
    } else {
      var pid :| pid in w.procs && MayRecord(w.procs[pid], id);
      FromProc(w, pid, id);
    }
  }

  lemma HopefulCanBeSent(w: World, id: nat)
    requires Publishable(w, id) && Hopeful(w, id)
    ensures CanBeSent(w, id)
  {
    PublishableMessages(w, id);
    hide CanBeSent, Dispatcher.Message, Sound, Source, Carried;
    if w.outbox[id].state.Sent? {
      SentNow(w, id);
    } else if !w.outbox[id].state.DeadLetter? && w.outbox[id].attempts < Outbox.MAX_ATTEMPTS {
      FromAttempt(w, id);
    } else {
      CarriedCanBeSent(w, id);
    }
  }

  // ---------- What is lost stays lost ----------

  ghost predicate Hopeless(w: World, id: nat) { id in w.outbox && !Hopeful(w, id) }

  // No process newly intends to record the event.
  ghost predicate NoNewIntent(procs: map<nat, Proc>, procs': map<nat, Proc>, id: nat) {
    forall pid | pid in procs' && MayRecord(procs'[pid], id) :: pid in procs && MayRecord(procs[pid], id)
  }

  ghost predicate NoNewRecorder(w: World, w': World, id: nat) {
    NoNewIntent(w.procs, w'.procs, id) && forall e | e in w'.held && e.id == id :: e in w.held
  }

  lemma EvolvingRecorders(w: World, a: Action, id: nat)
    requires Evolves(w, a, After(w, a).procs) && After(w, a).held <= w.held && (a.Begin? ==> a.event.id != id)
    ensures NoNewRecorder(w, After(w, a), id)
  {
    hide After, Contract.Receive;
  }

  lemma {:induction false} EventsOfIds(rows: Outbox.Table, ids: seq<nat>)
    ensures forall e | e in EventsOf(rows, ids) :: e.id in ids
  {
    if ids != [] {
      EventsOfIds(rows, ids[1..]);
    }
  }

  lemma PassiveRecorders(w: World, a: Action, id: nat)
    requires Enabled(w, a) && Passive(a) && id in w.outbox && w.outbox[id].attempts >= Outbox.MAX_ATTEMPTS
    ensures NoNewRecorder(w, After(w, a), id)
  {
    if a.Claim? {
      EventsOfIds(Outbox.ClaimAll(w.outbox, a.ids, w.now), a.ids);
      Dispatcher.BatchIsClaimable(w.outbox, w.now, a.ids, id);
    }
    hide Outbox.CanClaim, EventsOf, Outbox.ClaimAll, Outbox.ResetAll, Outbox.DeleteExpired, MayRecord;
  }

  lemma CallRecorders(w: World, a: Action, id: nat)
    requires Enabled(w, a) && Calls(a)
    ensures NoNewRecorder(w, After(w, a), id)
  {
    hide After, Enabled, AfterWork, AfterDispatch, Ahead, CanCall, WorkHistory, Worker.PerformRows, Moved, Contract.Publishing,
      Dispatcher.Perform, Dispatcher.Message;
    CallParts(w, a);
    var p := w.procs[a.pid];
    if a.Work? {
      WorkParts(w, a.pid, p, Ahead(p.request, w.limit, p.made, a.env));
    } else {
      DispatchParts(w, a.pid, p.event, EventAhead(p.event, p.published, a.answers, a.at, a.delay));
    }
  }

  /** The last attempt, when nobody works on it any more, can only be recovered or dead-lettered. */
  lemma LastAttemptStaysLost(w: World, a: Action, id: nat)
    requires Sound(w) && Hopeless(w, id) && w.outbox[id].state.Publishing? && id in w.history.recorded
    ensures Hopeless(After(w, a), id)
  {
    hide Sound, After, Enabled, AfterWork, AfterDispatch, Ahead, EventAhead, CanCall, WorkHistory, Worker.PerformRows, Moved,
      Contract.Publishing, Dispatcher.Perform;
    if !Enabled(w, a) {
      DisabledChangesNothing(w, a);
    } else if Passive(a) {
      PassiveRecorders(w, a, id);
      PassiveRow(w, a, id);
    } else if Stops(a) {
      StopsParts(w, a);
      EvolvingRecorders(w, a, id);
    } else if Starts(a) {
      StartIs(w, a);
      StartsParts(w, a);
      EvolvingRecorders(w, a, id);
    } else {
      CallRecorders(w, a, id);
      CallRow(w, a, id);
    }
  }

  // The row of a last attempt after a statement on the table.
  lemma PassiveRow(w: World, a: Action, id: nat)
    requires Enabled(w, a) && Passive(a) && id in w.history.recorded
    requires id in w.outbox && w.outbox[id].state.Publishing? && w.outbox[id].attempts >= Outbox.MAX_ATTEMPTS
    ensures var rows := After(w, a).outbox;
            id in rows && rows[id].attempts == w.outbox[id].attempts && (rows[id].state.Publishing? || rows[id].state.Pending?)
  {
    if a.Claim? {
      Dispatcher.BatchIsClaimable(w.outbox, w.now, a.ids, id);
    }
    hide Outbox.CanClaim, EventsOf;
  }

  lemma CallRow(w: World, a: Action, id: nat)
    requires Sound(w) && Enabled(w, a) && Calls(a) && Hopeless(w, id) && w.outbox[id].state.Publishing?
    ensures var rows := After(w, a).outbox;
            id in rows && rows[id].attempts == w.outbox[id].attempts && (rows[id].state.Publishing? || rows[id].state.DeadLetter?)
  {
    hide Sound, ProcOk, After, Enabled, AfterWork, AfterDispatch, Ahead, EventAhead, CanCall, WorkHistory, Worker.PerformRows, Moved,
      Contract.Publishing, Dispatcher.Perform;
    CallParts(w, a);
    var p := w.procs[a.pid];
    if a.Work? {
      WorkParts(w, a.pid, p, Ahead(p.request, w.limit, p.made, a.env));
    } else {
      var ahead := EventAhead(p.event, p.published, a.answers, a.at, a.delay);
      DispatchParts(w, a.pid, p.event, ahead);
      UnrecordedRow(w.outbox, id, p, ahead[0], w.now) by {
        UnrecordedEffect(p, a.answers, a.at, a.delay, id);
      }
    }
  }

  // Only a dispatcher that may record the event does so.
  lemma UnrecordedEffect(p: Proc, answers: Dispatcher.EventEnv, at: int, delay: int, id: nat)
    requires p.Dispatching? && EventAhead(p.event, p.published, answers, at, delay) != [] && !MayRecord(p, id)
    ensures p.event.id == id ==> !EventAhead(p.event, p.published, answers, at, delay)[0].RecordSent?
  {
    hide Dispatcher.Message;
  }

  lemma UnrecordedRow(rows: Outbox.Table, id: nat, p: Proc, e: Dispatcher.Effect, now: int)
    requires id in rows && rows[id].state.Publishing? && rows[id].attempts >= Outbox.MAX_ATTEMPTS
    requires p.Dispatching? && (p.event.id == id ==> !e.RecordSent?)
    ensures var after := Dispatcher.Perform(rows, p.event.id, e, now);
            id in after && after[id].attempts == rows[id].attempts && (after[id].state.Publishing? || after[id].state.DeadLetter?)
  {}

  lemma HopelessStays(w: World, a: Action, id: nat)
    requires Sound(w) && Hopeless(w, id)
    ensures Hopeless(After(w, a), id)
  {
    SoundRow(w, id);
    hide Sound, After, Carried;
    if w.outbox[id].state.Publishing? {
      LastAttemptStaysLost(w, a, id);
    } else {
      ActionKeepsSpent(w, a, id);
    }
  }

  lemma {:induction false} HopelessForever(w: World, actions: seq<Action>, id: nat)
    requires Sound(w) && Hopeless(w, id)
    ensures Hopeless(Run(w, actions), id)
  {
    hide Sound, After, Hopeless;
    if actions != [] {
      var shorter := actions[..|actions| - 1];
      HopelessForever(w, shorter, id);
      LaterIsSound(w, shorter);
      HopelessStays(Run(w, shorter), actions[|actions| - 1], id);
    }
  }

  /**
   A recorded build can still be sent exactly while an attempt is left, or the
   last one is under way: its row is publishing, and some dispatcher has the
   event and has not published it yet, or was acked and has still to record it.
   */
  lemma CanBeSentExactly(w: World, id: nat)
    requires Publishable(w, id)
    ensures CanBeSent(w, id) <==> Hopeful(w, id)
  {
    hide Sound, Run, Source, Carried;
    if Hopeful(w, id) {
      HopefulCanBeSent(w, id);
    } else {
      forall actions ensures !SentIn(Run(w, actions), id) {
        HopelessForever(w, actions, id);
      }
    }
  }

  // ---------- Rows that stay pending ----------

  /** The row stays pending, whatever happens next. */
  ghost predicate Strands(w: World, id: nat) {
    forall more :: StaysPending(Run(w, more), id)
  }

  predicate StaysPending(w: World, id: nat) { id in w.outbox && w.outbox[id].state.Pending? }

  /** A pending row is stranded exactly when its attempts are used up. */
  lemma StrandsExactly(w: World, id: nat)
    requires Sound(w) && StaysPending(w, id)
    ensures Strands(w, id) <==> w.outbox[id].attempts >= Outbox.MAX_ATTEMPTS
  {
    hide Sound, Run, After;
    if w.outbox[id].attempts >= Outbox.MAX_ATTEMPTS {
      forall more ensures StaysPending(Run(w, more), id) {
        SpentForever(w, more, id);
      }
    } else {
      var d := Patience(w.outbox[id], w.now);
      var claim := Claim([id], false);
      WaitOne(w, d);
      ClaimOne(After(w, Wait(d)), id, false);
      TwoSteps(w, Wait(d), claim);
      assert !StaysPending(Run(w, [Wait(d), claim]), id);
    }
  }

  lemma TwoSteps(w: World, a: Action, b: Action)
    ensures Run(w, [a, b]) == After(After(w, a), b)
  {
    hide After;
    RunStep(w, [], a);
    RunStep(w, [a], b);
    assert [a, b] == [a] + [b] && [a] == [] + [a];
  }

  // The fifth claim is abandoned like the others, and then recovered.
  lemma FifthClaim(limit: int, unconfirmed: bool) returns (actions: seq<Action>)
    ensures var w := Run(Start(limit, unconfirmed), actions);
            StaysPending(w, 0) && w.outbox[0].attempts == Outbox.MAX_ATTEMPTS && w.history.recorded == map[0 := ROW]
  {
    hide After, Alone, Abandoned, ROW;
    var shorter, now := AbandonedClaims(limit, unconfirmed, Outbox.MAX_ATTEMPTS);
    var recover := ResetStuck(Outbox.CLAIM_LEASE);
    Recover(limit, unconfirmed, Outbox.MAX_ATTEMPTS, now);
    RunStep(Start(limit, unconfirmed), shorter, recover);
    actions := shorter + [recover];
  }

  /** Such rows can be reached: some run strands a valid build. */
  lemma BuildsCanStrand(limit: int, unconfirmed: bool)
    ensures exists actions ::
              var w := Run(Start(limit, unconfirmed), actions);
              0 in w.history.recorded && Source(w.history.recorded[0]).Some? && Strands(w, 0)
  {
    hide Strands, Run, Sound, Source;
    var actions := FifthClaim(limit, unconfirmed);
    SampleRow();
    RunIsSound(limit, unconfirmed, actions);
    StrandsExactly(Run(Start(limit, unconfirmed), actions), 0);
  }
}
