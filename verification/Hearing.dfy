/**
 What the server hears about one job: the shape of its updates over all its
 deliveries, and exactly when the shape is kept.
 */
module Hearing {
  import opened Wrappers
  import opened Contract
  import opened Faults
  import opened Status
  import opened Worker
  import opened JobRuns

  // ---------- One delivery ----------

  function Heard(req: BuildRequest, status: Status, url: string, reason: Reason): Update {
    Update(req.deploymentId, status, url, reason)
  }

  function Buildings(req: BuildRequest, k: nat): seq<Update> {
    seq(k, _ => Heard(req, Building, "", NoReason))
  }

  /** building^k, then success if the run succeeded or canceled if it was given up, or neither. */
  ghost predicate Speaks(req: BuildRequest, updates: seq<Update>, end: End, k: nat) {
    || updates == Buildings(req, k)
    || (end.Succeeded? && exists url :: updates == Buildings(req, k) + [Heard(req, Success, url, NoReason)])
    || (end.GivenUp? && updates == Buildings(req, k) + [Heard(req, Canceled, "", RetriesExhausted)])
  }

  ghost predicate SpeaksUpTo(req: BuildRequest, updates: seq<Update>, end: End, most: nat) {
    exists k | 0 <= k <= most :: Speaks(req, updates, end, k)
  }

  // A refused success update is not in the queue.
  predicate Faithful(env: Env) { env.announceSuccess != Refused(true) }

  lemma SaysThen(a: Outcome, b: Outcome)
    ensures Updates(a.Then(b).trace) == Updates(a.trace) + (if a.ok then Updates(b.trace) else [])
  {
    UpdatesConcat(a.trace, b.trace);
  }

  lemma SaysCall(e: Effect, ok: bool)
    ensures Updates(Call(e, ok).trace) == if e.Announce? && e.publish.Arrived() then [e.update] else []
  {
    assert [e][..0] == [];
  }

  lemma PrepareSays(req: BuildRequest, env: Env)
    ensures Updates(Prepare(req, env).trace) == [] || Updates(Prepare(req, env).trace) == Buildings(req, 1)
  {
    var insert := if req.retryCount == 0 then Call(Insert(env.insert), env.insert.Fine?) else Outcome([], true);
    var mark := Call(MarkBuilding(env.building), env.building.Fine?);
    var announce := Call(AnnounceBuilding(req, env), env.announceBuilding.Returned());
    SaysCall(Insert(env.insert), env.insert.Fine?);
    SaysCall(MarkBuilding(env.building), env.building.Fine?);
    SaysCall(AnnounceBuilding(req, env), env.announceBuilding.Returned());
    SaysThen(insert, mark);
    SaysThen(insert.Then(mark), announce);
  }

  lemma FinishSays(req: BuildRequest, url: string, env: Env)
    requires Faithful(env)
    ensures var u := Updates(Finish(req, url, env).trace);
            u == [] || (Finish(req, url, env).ok && u == [Heard(req, Success, url, NoReason)])
  {
    var finished := Call(MarkFinished(url, env.finished), env.finished.Fine?);
    var announce := Call(AnnounceSuccess(req, url, env), env.announceSuccess.Returned());
    SaysCall(MarkFinished(url, env.finished), env.finished.Fine?);
    SaysCall(AnnounceSuccess(req, url, env), env.announceSuccess.Returned());
    SaysThen(finished, announce);
  }

  lemma BuildSays(req: BuildRequest, env: Env)
    requires Faithful(env)
    ensures var u := Updates(Build(req, env).trace);
            u == [] || (Build(req, env).ok && exists url :: u == [Heard(req, Success, url, NoReason)])
  {
    FinishSays(req, "", env);
    SaysCall(MarkFailed(CheckoutFailed, env.failed), false);
    SaysCall(MarkFailed(AppDirUnresolved, env.failed), false);
    SaysCall(MarkFailed(PrepareFailed, env.failed), false);
    SaysCall(MarkFailed(BuildFailed, env.failed), false);
    SaysCall(MarkFailed(ServerSideRendering, env.failed), false);
    if env.upload.Some? {
      FinishSays(req, env.upload.value, env);
      SaysCall(SetOutputUrl(env.upload.value, env.url), env.url.Fine?);
      SaysThen(Call(SetOutputUrl(env.upload.value, env.url), env.url.Fine?), Finish(req, env.upload.value, env));
    }
    hide Finish, Updates;
  }

  lemma ProcessSays(req: BuildRequest, env: Env)
    requires Faithful(env)
    ensures SpeaksUpTo(req, Updates(Process(req, env).trace), if Process(req, env).ok then Succeeded else Open, 1)
  {
    hide Prepare, Build, Updates;
    PrepareSays(req, env);
    BuildSays(req, env);
    SaysCall(MarkFailed(TagUnreadable, env.failed), false);
    SaysCall(ReadTag(env.tagRead), true);
    var prepared := Prepare(req, env);
    var read := prepared.Then(Call(ReadTag(env.tagRead), true));
    var rest := if env.tagRead then Build(req, env) else Fails(TagUnreadable, env);
    SaysThen(prepared, Call(ReadTag(env.tagRead), true));
    SaysThen(read, rest);
    assert Updates(rest.trace) == [] || (rest.ok && exists url :: Updates(rest.trace) == [Heard(req, Success, url, NoReason)]);
    var k := |Updates(prepared.trace)|;
    assert Updates(prepared.trace) == Buildings(req, k);
    assert Speaks(req, Updates(Process(req, env).trace), if Process(req, env).ok then Succeeded else Open, k);
  }

  lemma AttemptSays(req: BuildRequest, env: Env)
    requires Faithful(env)
    ensures SpeaksUpTo(req, Updates(Attempt(req, env).trace), if Attempt(req, env).ok then Succeeded else Open, 1)
  {
    hide Process, Updates;
    ProcessSays(req, env);
    SaysCall(FetchCredential(env.granted), env.granted);
    SaysThen(Call(FetchCredential(env.granted), env.granted), Process(req, env));
    assert Speaks(req, [], Open, 0);
    if env.granted {
      assert Updates(Attempt(req, env).trace) == Updates(Process(req, env).trace);
    }
  }

  lemma ClosingSays(req: BuildRequest, limit: int, env: Env, ok: bool)
    ensures var u := Updates(Closing(req, limit, env, ok));
            u == [] || (!ok && LimitReached(req, limit) && u == [Heard(req, Canceled, "", RetriesExhausted)])
  {
    hide RepublishOutcome, Retry, LimitReached;
    var closing := Closing(req, limit, env, ok);
    if |closing| == 2 {
      UpdatesConcat([closing[0]], [closing[1]]);
      SaysCall(closing[0], true);
      SaysCall(closing[1], true);
      assert closing == [closing[0]] + [closing[1]];
    } else {
      UpdatesConcat([closing[0]], [closing[1]]);
      UpdatesConcat([closing[0]] + [closing[1]], [closing[2]]);
      UpdatesConcat([closing[0]] + [closing[1]] + [closing[2]], [closing[3]]);
      SaysCall(closing[0], true);
      SaysCall(closing[1], true);
      SaysCall(closing[2], true);
      SaysCall(closing[3], true);
      assert closing == [closing[0]] + [closing[1]] + [closing[2]] + [closing[3]];
    }
  }

  lemma DeliverySays(req: BuildRequest, limit: int, env: Env)
    requires Faithful(env)
    ensures var ok, u := Attempt(req, env).ok, Updates(Delivery(req, limit, env));
            if ok then SpeaksUpTo(req, u, Succeeded, 1)
            else if LimitReached(req, limit) then SpeaksUpTo(req, u, GivenUp, 1)
            else exists k | 0 <= k <= 1 :: u == Buildings(req, k)
  {
    hide Attempt, Closing, Updates, LimitReached;
    var a := Attempt(req, env);
    AttemptSays(req, env);
    ClosingSays(req, limit, env, a.ok);
    UpdatesConcat(a.trace, Closing(req, limit, env, a.ok));
    var k :| 0 <= k <= 1 && Speaks(req, Updates(a.trace), if a.ok then Succeeded else Open, k);
    if a.ok {
      assert Speaks(req, Updates(Delivery(req, limit, env)), Succeeded, k);
    } else if LimitReached(req, limit) {
      assert Speaks(req, Updates(Delivery(req, limit, env)), GivenUp, k);
    }
  }

  // ---------- The shape over all deliveries ----------

  // A retry of this request can be published at all.
  predicate CanRetry(req: BuildRequest, limit: int) { Valid(Retry(req)) && !LimitReached(req, limit) }

  // No crash and no lost ack, and neither a success update nor a retry is in
  // the broker although its publish reported an error; a retry that cannot be
  // published does not matter.
  predicate Undoubted(env: Env, req: BuildRequest, limit: int) {
    env.settle && Faithful(env) && (CanRetry(req, limit) ==> env.republish != Refused(true))
  }

  /** building^k with k at most n, then at most one final word, which ends the job. */
  ghost predicate Shape(s: Shop, after: Shop, req: BuildRequest, n: nat) {
    exists k | 0 <= k <= n :: ShapeAt(s, after, req, k)
  }

  ghost predicate ShapeAt(s: Shop, after: Shop, req: BuildRequest, k: nat) {
    || after.updates == s.updates + Buildings(req, k)
    || (&& after.jobs == [] && after.done == s.done + [JobOf(req)]
        && exists url :: after.updates == s.updates + (Buildings(req, k) + [Heard(req, Success, url, NoReason)]))
    || (&& after.jobs == [] && |after.dlq| == |s.dlq| + 1 && s.dlq <= after.dlq
        && after.updates == s.updates + (Buildings(req, k) + [Heard(req, Canceled, "", RetriesExhausted)]))
  }

  lemma NothingHeard(s: Shop, req: BuildRequest, n: nat)
    ensures Shape(s, s, req, n)
  {
    assert s.updates == s.updates + Buildings(req, 0);
    assert ShapeAt(s, s, req, 0);
  }

  // The last turn of a job.
  lemma LastTurnSpeaks(s: Shop, after: Shop, req: BuildRequest, u: seq<Update>, end: End)
    requires after.jobs == [] && after.updates == s.updates + u && SpeaksUpTo(req, u, end, 1)
    requires end.Succeeded? ==> after.done == s.done + [JobOf(req)]
    requires end.GivenUp? ==> |after.dlq| == |s.dlq| + 1 && s.dlq <= after.dlq
    ensures Shape(s, after, req, 1)
  {
    var k :| 0 <= k <= 1 && Speaks(req, u, end, k);
    assert ShapeAt(s, after, req, k);
  }

  // A turn that says building at most once, and then the others.
  lemma OneMoreTurn(s: Shop, first: Shop, after: Shop, req: BuildRequest, next: BuildRequest, more: nat, n: nat)
    requires more <= 1 && first.updates == s.updates + Buildings(req, more) && first.done == s.done && first.dlq == s.dlq
    requires next.deploymentId == req.deploymentId && JobOf(next) == JobOf(req) && Shape(first, after, next, n)
    ensures Shape(s, after, req, n + 1)
  {
    var k :| 0 <= k <= n && ShapeAt(first, after, next, k);
    assert Buildings(req, more) + Buildings(next, k) == Buildings(req, more + k);
    assert ShapeAt(s, after, req, more + k) by {
      if after.updates == first.updates + Buildings(next, k) {
        assert after.updates == s.updates + Buildings(req, more + k);
      } else {
        var last := after.updates[|after.updates| - 1];
        assert after.updates == first.updates + (Buildings(next, k) + [last]);
        assert after.updates == s.updates + (Buildings(req, more + k) + [last]);
        if last.status.Success? {
          assert last == Heard(req, Success, last.outputUrl, NoReason);
        }
      }
    }
  }

  /** Whatever else fails, the updates of a job keep the shape in the message loop. */
  lemma {:induction false} TurnsSpeak(s: Shop, req: BuildRequest, limit: int, tape: Tape, at: nat, n: nat)
    requires Valid(req) && s.jobs == [Publishing(req).value]
    requires forall i | at <= i < at + n :: Undoubted(tape(i), req, limit)
    ensures Shape(s, Turns(s, limit, tape, at, n), req, n)
    decreases n
  {
    hide Valid, Publishing, Receive, Attempt, RowsAfter, Updates, LimitReached, Seen, Turn, Delivery, Shape, SpeaksUpTo;
    PublishedIsReceived(req);
    if n == 0 {
      NothingHeard(s, req, 0);
    } else {
      assert Undoubted(tape(at), req, limit);
      var env, first := Seen(tape(at), s.rows, req), Turn(s, limit, tape(at));
      SeenKeepsAnnouncement(tape(at), s.rows, req);
      SeenKeepsFaults(tape(at), s.rows, req);
      TurnQueues(s, limit, tape(at));
      DeliverySays(req, limit, env);
      if Attempt(req, env).ok || LimitReached(req, limit) {
        LastTurnSpeaks(s, first, req, Updates(Delivery(req, limit, env)), if Attempt(req, env).ok then Succeeded else GivenUp);
        ShapeGrows(s, first, req, 1, n);
      } else {
        RetryTurnSpeaks(s, req, limit, tape, at, n);
      }
    }
  }

  lemma ShapeGrows(s: Shop, after: Shop, req: BuildRequest, n: nat, n': nat)
    requires Shape(s, after, req, n) && n <= n'
    ensures Shape(s, after, req, n')
  {
    hide ShapeAt;
  }

  lemma SeenKeepsAnnouncement(env: Env, rows: Rows, req: BuildRequest)
    ensures Seen(env, rows, req).announceSuccess == env.announceSuccess
  {}

  lemma RetryTurnSpeaks(s: Shop, req: BuildRequest, limit: int, tape: Tape, at: nat, n: nat)
    requires n > 0 && Valid(req) && s.jobs == [Publishing(req).value]
    requires forall i | at <= i < at + n :: Undoubted(tape(i), req, limit)
    requires !Attempt(req, Seen(tape(at), s.rows, req)).ok && !LimitReached(req, limit)
    ensures Shape(s, Turns(s, limit, tape, at, n), req, n)
    decreases n, 0
  {
    hide Valid, Publishing, Receive, Attempt, RowsAfter, Updates, LimitReached, Seen, Turn, Delivery, Shape, SpeaksUpTo;
    var env, first := Seen(tape(at), s.rows, req), Turn(s, limit, tape(at));
    assert Undoubted(tape(at), req, limit);
    SeenKeepsAnnouncement(tape(at), s.rows, req);
    SeenKeepsFaults(tape(at), s.rows, req);
    PublishedIsReceived(req);
    TurnQueues(s, limit, tape(at));
    DeliverySays(req, limit, env);
    var k :| 0 <= k <= 1 && Updates(Delivery(req, limit, env)) == Buildings(req, k);
    PublishedIsReceived(Retry(req));
    var p, after := RepublishOutcome(req, env), Turns(first, limit, tape, at + 1, n - 1);
    assert Turns(s, limit, tape, at, n) == after;
    if first.jobs == [] {
      NothingHeard(first, req, n - 1);
      OneMoreTurn(s, first, after, req, req, k, n - 1);
    } else if p.Returned() {
      assert CanRetry(req, limit) && first.jobs == [Publishing(Retry(req)).value];
      TurnsSpeak(first, Retry(req), limit, tape, at + 1, n - 1);
      OneMoreTurn(s, first, after, req, Retry(req), k, n - 1);
    } else {
      assert first.jobs == [Publishing(req).value];
      TurnsSpeak(first, req, limit, tape, at + 1, n - 1);
      OneMoreTurn(s, first, after, req, req, k, n - 1);
    }
  }

  // ---------- Deliveries that break it ----------

  // Everything works, but for how the publish of the success update ends.
  function Announcing(p: Publish): Env { SMOOTH.(announceSuccess := p) }

  // The checkout fails, and the broker has the retry although its publish
  // reported an error.
  const UNLUCKY := SMOOTH.(checkout := false, republish := Refused(true))

  function Built(req: BuildRequest): seq<Update> {
    [Heard(req, Building, "", NoReason), Heard(req, Success, "", NoReason)]
  }

  lemma NothingToSay()
    ensures Updates([]) == []
  {}

  lemma SmoothPrepareSays(req: BuildRequest, env: Env)
    requires env.insert.Fine? && env.building.Fine? && env.announceBuilding.Queued?
    ensures Prepare(req, env).ok && Updates(Prepare(req, env).trace) == [Heard(req, Building, "", NoReason)]
  {
    hide Updates;
    var insert := if req.retryCount == 0 then Call(Insert(Fine), true) else Outcome([], true);
    var mark, announce := Call(MarkBuilding(Fine), true), Call(AnnounceBuilding(req, env), true);
    SaysCall(Insert(Fine), true);
    SaysCall(MarkBuilding(Fine), true);
    SaysCall(AnnounceBuilding(req, env), true);
    SaysThen(insert, mark);
    SaysThen(insert.Then(mark), announce);
    NothingToSay();
  }

  lemma FinishAnnounces(req: BuildRequest, env: Env)
    requires env.finished.Fine? && env.announceSuccess.Arrived()
    ensures Finish(req, "", env).ok == env.announceSuccess.Returned()
    ensures Updates(Finish(req, "", env).trace) == [Heard(req, Success, "", NoReason)]
  {
    hide Updates;
    var announce := Call(AnnounceSuccess(req, "", env), env.announceSuccess.Returned());
    SaysCall(MarkFinished("", Fine), true);
    SaysCall(AnnounceSuccess(req, "", env), env.announceSuccess.Returned());
    SaysThen(Call(MarkFinished("", Fine), true), announce);
  }

  // A delivery with everything up to the build in order.
  lemma SmoothAttempt(req: BuildRequest, env: Env)
    requires env.granted && env.tagRead && env.insert.Fine? && env.building.Fine? && env.announceBuilding.Queued?
    ensures Attempt(req, env).ok == Build(req, env).ok
    ensures Updates(Attempt(req, env).trace) == [Heard(req, Building, "", NoReason)] + Updates(Build(req, env).trace)
  {
    var prepared, read, rest := Prepare(req, env), Call(ReadTag(true), true), Build(req, env);
    SmoothPrepareSays(req, env);
    hide Prepare, Build, Updates;
    SaysCall(ReadTag(true), true);
    SaysCall(FetchCredential(true), true);
    SaysThen(prepared, read);
    SaysThen(prepared.Then(read), rest);
    SaysThen(Call(FetchCredential(true), true), Process(req, env));
  }

  lemma AnnouncingSays(req: BuildRequest, p: Publish)
    requires p.Arrived()
    ensures Attempt(req, Announcing(p)).ok == p.Returned()
    ensures Updates(Attempt(req, Announcing(p)).trace) == Built(req)
  {
    var env := Announcing(p);
    assert Build(req, env) == Finish(req, "", env);
    SmoothAttempt(req, env);
    FinishAnnounces(req, env);
    hide Attempt, Build, Finish, Updates;
  }

  lemma UnluckySays(req: BuildRequest)
    ensures !Attempt(req, UNLUCKY).ok
    ensures Updates(Attempt(req, UNLUCKY).trace) == [Heard(req, Building, "", NoReason)]
  {
    var failed := MarkFailed(CheckoutFailed, Fine);
    assert Build(req, UNLUCKY) == Call(failed, false);
    SmoothAttempt(req, UNLUCKY);
    SaysCall(failed, false);
    hide Attempt, Build, Updates;
  }

  lemma {:induction false} RowsAfterGrow(rows: Rows, req: BuildRequest, trace: seq<Effect>)
    ensures rows.Keys <= RowsAfter(rows, req, trace).Keys
  {
    if trace != [] {
      RowsAfterGrow(rows, req, trace[..|trace| - 1]);
    }
  }

  // A turn on a job whose row is there.
  lemma TurnSays(s: Shop, req: BuildRequest, limit: int, env: Env)
    requires s.jobs != [] && Receive(s.jobs[0]) == Ok(req) && req.deploymentId in s.rows && env.tagRead
    ensures Seen(env, s.rows, req) == env && req.deploymentId in Turn(s, limit, env).rows
    ensures var said := Updates(Attempt(req, env).trace);
            exists rest :: Turn(s, limit, env).updates == s.updates + (said + rest)
                           && (!LimitReached(req, limit) ==> rest == [])
                           && (!Attempt(req, env).ok && LimitReached(req, limit) && env.announceCanceled.Queued? ==> |rest| == 1)
  {
    assert Seen(env, s.rows, req) == env;
    hide Receive, Attempt, Closing, Updates, LimitReached, RowsAfter, Turn;
    TurnQueues(s, limit, env);
    var a := Attempt(req, env);
    UpdatesConcat(a.trace, Closing(req, limit, env, a.ok));
    ClosingSays(req, limit, env, a.ok);
    if !a.ok && LimitReached(req, limit) && env.announceCanceled.Queued? {
      GivingUpSays(req, limit, env);
    }
    RowsAfterGrow(s.rows, req, Delivery(req, limit, env));
    assert Turn(s, limit, env).updates == s.updates + (Updates(a.trace) + Updates(Closing(req, limit, env, a.ok)));
  }

  /** A success that is not the last thing said. */
  lemma NotTheShape(s: Shop, after: Shop, req: BuildRequest, said: seq<Update>, j: nat, n: nat)
    requires after.updates == s.updates + said && j + 1 < |said| && said[j].status.Success?
    ensures !Shape(s, after, req, n)
  {
    forall k | 0 <= k <= n ensures !ShapeAt(s, after, req, k) {
      assert forall i | 0 <= i < |said| :: after.updates[|s.updates| + i] == said[i];
      assert |Buildings(req, k)| == k && forall i | 0 <= i < k :: Buildings(req, k)[i].status.Building?;
    }
  }

  lemma GivingUpSays(req: BuildRequest, limit: int, env: Env)
    requires LimitReached(req, limit) && env.announceCanceled.Queued?
    ensures Updates(Closing(req, limit, env, false)) == [Heard(req, Canceled, "", RetriesExhausted)]
  {
    hide LimitReached, Updates;
    var c := Closing(req, limit, env, false);
    assert c == [c[0]] + [c[1]] + [c[2]] + [c[3]];
    UpdatesConcat([c[0]], [c[1]]);
    UpdatesConcat([c[0]] + [c[1]], [c[2]]);
    UpdatesConcat([c[0]] + [c[1]] + [c[2]], [c[3]]);
    SaysCall(c[0], true);
    SaysCall(c[1], true);
    SaysCall(c[2], true);
    SaysCall(c[3], true);
  }

  // The job alone in the queue, and its row in the table.
  predicate Waiting(s: Shop, req: BuildRequest) {
    Valid(req) && s.jobs == [Publishing(req).value] && req.deploymentId in s.rows
  }

  // The updates of one doubtful turn.
  lemma DoubtfulTurn(s: Shop, req: BuildRequest, limit: int) returns (rest: seq<Update>)
    requires Waiting(s, req)
    ensures var first := Turn(s, limit, Announcing(Refused(true)));
            && first.updates == s.updates + (Built(req) + rest)
            && (LimitReached(req, limit) ==> |rest| == 1)
            && (!LimitReached(req, limit) ==>
                  var next := if Valid(Retry(req)) then Retry(req) else req;
                  rest == [] && Waiting(first, next))
  {
    hide Valid, Publishing, Receive, Attempt, Updates, LimitReached, RowsAfter, Turn, Delivery, Seen;
    var env := Announcing(Refused(true));
    PublishedIsReceived(req);
    PublishedIsReceived(Retry(req));
    AnnouncingSays(req, Refused(true));
    TurnSays(s, req, limit, env);
    TurnQueues(s, limit, env);
    rest :| Turn(s, limit, env).updates == s.updates + (Built(req) + rest) && (!LimitReached(req, limit) ==> rest == [])
            && (LimitReached(req, limit) ==> |rest| == 1);
  }

  /** The success arrives, its publish reports an error, and the worker goes on. */
  lemma DoubtfulSuccessBreaksShape(s: Shop, req: BuildRequest, limit: int, tape: Tape)
    requires Waiting(s, req) && forall i: nat :: tape(i) == Announcing(Refused(true))
    ensures exists n :: !Shape(s, Turns(s, limit, tape, 0, n), req, n)
  {
    hide Valid, Publishing, Receive, Retry, LimitReached, Turn, Turns, Shape, Built, Announcing;
    assert tape(0) == Announcing(Refused(true)) && tape(1) == Announcing(Refused(true));
    var first := Turn(s, limit, tape(0));
    var rest := DoubtfulTurn(s, req, limit);
    OneTurn(s, limit, tape);
    BuiltIsTwo(req);
    if LimitReached(req, limit) {
      NotTheShape(s, first, req, Built(req) + rest, 1, 1);
      assert !Shape(s, Turns(s, limit, tape, 0, 1), req, 1);
    } else {
      var next := if Valid(Retry(req)) then Retry(req) else req;
      var more := DoubtfulTurn(first, next, limit);
      BuiltIsTwo(next);
      var second := Turn(first, limit, tape(1));
      var said := Built(req) + (Built(next) + more);
      assert second.updates == s.updates + said;
      TwoTurns(s, limit, tape);
      NotTheShape(s, second, req, said, 1, 2);
      assert !Shape(s, Turns(s, limit, tape, 0, 2), req, 2);
    }
  }

  lemma BuiltIsTwo(req: BuildRequest)
    ensures |Built(req)| == 2 && Built(req)[1].status.Success?
  {}

  lemma OneTurn(s: Shop, limit: int, tape: Tape)
    requires s.jobs != []
    ensures Turns(s, limit, tape, 0, 1) == Turn(s, limit, tape(0))
  {
    hide Turn;
    assert Turns(Turn(s, limit, tape(0)), limit, tape, 1, 0) == Turn(s, limit, tape(0));
  }

  lemma TwoTurns(s: Shop, limit: int, tape: Tape)
    requires s.jobs != [] && Turn(s, limit, tape(0)).jobs != []
    ensures Turns(s, limit, tape, 0, 2) == Turn(Turn(s, limit, tape(0)), limit, tape(1))
  {
    OneTurn(s, limit, tape);
    TurnsStep(s, limit, tape, 0, 1);
    hide Turn;
  }

  // The attempt fails, and both the retry and the old message are queued.
  lemma UnluckyTurn(s: Shop, req: BuildRequest, limit: int)
    requires Waiting(s, req) && CanRetry(req, limit)
    ensures var first := Turn(s, limit, UNLUCKY);
            && first.jobs == [Publishing(req).value, Publishing(Retry(req)).value] && req.deploymentId in first.rows
            && first.updates == s.updates + [Heard(req, Building, "", NoReason)]
  {
    hide Valid, Publishing, Receive, Attempt, Updates, LimitReached, RowsAfter, Turn, Delivery, Seen;
    PublishedIsReceived(req);
    PublishedIsReceived(Retry(req));
    UnluckySays(req);
    TurnSays(s, req, limit, UNLUCKY);
    TurnQueues(s, limit, UNLUCKY);
  }

  // A message whose row is there is built.
  lemma BuildingTurn(s: Shop, m: Envelope, others: seq<Envelope>, req: BuildRequest, limit: int) returns (rest: seq<Update>)
    requires s.jobs == [m] + others && Receive(m) == Ok(req) && req.deploymentId in s.rows
    ensures var first := Turn(s, limit, Announcing(Queued));
            first.jobs == others && req.deploymentId in first.rows && first.updates == s.updates + (Built(req) + rest)
            && (!LimitReached(req, limit) ==> rest == [])
  {
    hide Valid, Publishing, Receive, Attempt, Updates, LimitReached, RowsAfter, Turn, Delivery, Seen;
    AnnouncingSays(req, Queued);
    TurnSays(s, req, limit, Announcing(Queued));
    TurnQueues(s, limit, Announcing(Queued));
    rest :| Turn(s, limit, Announcing(Queued)).updates == s.updates + (Built(req) + rest) && (!LimitReached(req, limit) ==> rest == []);
  }

  /** The retry arrives, its publish reports an error, and the old message is requeued beside it: both are built. */
  lemma DoubtfulRetryBreaksShape(s: Shop, req: BuildRequest, limit: int, tape: Tape)
    requires Waiting(s, req) && CanRetry(req, limit)
    requires tape(0) == UNLUCKY && tape(1) == Announcing(Queued) && tape(2) == Announcing(Queued)
    ensures !Shape(s, Turns(s, limit, tape, 0, 3), req, 3)
  {
    PublishedIsReceived(req);
    PublishedIsReceived(Retry(req));
    SameRow(req);
    hide Valid, Publishing, Receive, LimitReached, Retry, Turn, Turns, Shape, Built, Announcing, UNLUCKY;
    var m, again := Publishing(req).value, Publishing(Retry(req)).value;
    var first := Turn(s, limit, tape(0));
    UnluckyTurn(s, req, limit);
    assert first.jobs == [m] + [again] && [again] == [again] + [];
    var second := Turn(first, limit, tape(1));
    var none := BuildingTurn(first, m, [again], req, limit);
    var third := Turn(second, limit, tape(2));
    var rest := BuildingTurn(second, again, [], Retry(req), limit);
    var said := [Heard(req, Building, "", NoReason)] + (Built(req) + []) + (Built(Retry(req)) + rest);
    assert third.updates == s.updates + said;
    TwoTurns(s, limit, tape);
    TurnsStep(s, limit, tape, 0, 2);
    BuiltIsTwo(req);
    BuiltIsTwo(Retry(req));
    NotTheShape(s, third, req, said, 2, 3);
  }

  lemma SameRow(req: BuildRequest)
    ensures Retry(req).deploymentId == req.deploymentId
  {}

  // ---------- The exact condition ----------

  // Which publishes may end in an error although the broker has the message.
  datatype Doubts = Doubts(success: bool, retry: bool)

  predicate Allowed(env: Env, d: Doubts) {
    env.settle && (d.success || Faithful(env)) && (d.retry || env.republish != Refused(true))
  }

  predicate OneJob(s: Shop, req: BuildRequest) { |s.jobs| == 1 && Publishing(req) == Ok(s.jobs[0]) }

  ghost predicate AlwaysShaped(req: BuildRequest, limit: int, d: Doubts) {
    forall s: Shop, tape: Tape, n: nat | OneJob(s, req) && (forall i: nat :: Allowed(tape(i), d)) ::
      Shape(s, Turns(s, limit, tape, 0, n), req, n)
  }

  lemma PresentJob(req: BuildRequest) returns (s: Shop)
    requires Valid(req)
    ensures Waiting(s, req)
  {
    PublishedIsReceived(req);
    hide Valid, Publishing, Receive;
    var row := Row(req.cloneUrl, Pending, 0, "", "", NoReason);
    s := Shop(map[req.deploymentId := row], [Publishing(req).value], [], [], []);
  }

  /**
   As long as nothing crashes and acks arrive, the shape holds for every run of
   a job exactly when no success publish and no retry publish can end in an
   error after the broker took the message; the latter does not matter for a
   job that cannot be retried.
   */
  lemma ShapeExactly(req: BuildRequest, limit: int, d: Doubts)
    requires Valid(req)
    ensures AlwaysShaped(req, limit, d) <==> !d.success && !(d.retry && CanRetry(req, limit))
  {
    PublishedIsReceived(req);
    hide Valid, Publishing, Receive, Turns, Shape, LimitReached, Retry;
    if d.success {
      var s := PresentJob(req);
      var tape: Tape := _ => Announcing(Refused(true));
      DoubtfulSuccessBreaksShape(s, req, limit, tape);
      var n :| !Shape(s, Turns(s, limit, tape, 0, n), req, n);
      assert forall i: nat :: Allowed(tape(i), d);
    } else if d.retry && CanRetry(req, limit) {
      var s := PresentJob(req);
      var tape: Tape := i => if i == 0 then UNLUCKY else Announcing(Queued);
      DoubtfulRetryBreaksShape(s, req, limit, tape);
      assert forall i: nat :: Allowed(tape(i), d);
    } else {
      forall s: Shop, tape: Tape, n: nat | OneJob(s, req) && forall i: nat :: Allowed(tape(i), d)
        ensures Shape(s, Turns(s, limit, tape, 0, n), req, n)
      {
        forall i | 0 <= i < n ensures Undoubted(tape(i), req, limit) {
          assert Allowed(tape(i), d);
        }
        TurnsSpeak(s, req, limit, tape, 0, n);
      }
    }
  }
}
