/**
 When a job can still complete. Only an attempt with retry count 0 inserts the
 worker's row, and every later call needs it.
 */
module Completion {
  import opened Wrappers
  import opened Contract
  import opened Faults
  import opened Worker
  import opened JobRuns

  // ---------- One attempt ----------

  /** An attempt can succeed exactly when the worker's row exists or this attempt may insert it. */
  lemma SuccessIsPossible(rows: Rows, req: BuildRequest)
    ensures (exists env :: Attempt(req, Seen(env, rows, req)).ok) <==> req.deploymentId in rows || req.retryCount == 0
  {
    if req.deploymentId in rows || req.retryCount == 0 {
      SmoothSucceeds(rows, req);
    }
  }

  lemma RowsGrow(rows: Rows, req: BuildRequest, e: Effect)
    ensures var after := PerformRows(rows, req, e);
            rows.Keys <= after.Keys <= rows.Keys + {req.deploymentId}
            && (req.deploymentId in after && req.deploymentId !in rows ==> e.Insert?)
  {}

  predicate Inserts(trace: seq<Effect>) {
    exists i | 0 <= i < |trace| :: trace[i].Insert? && trace[i].db.Took()
  }

  lemma {:induction false} OnlyInsertCreates(rows: Rows, req: BuildRequest, trace: seq<Effect>)
    requires req.deploymentId !in rows
    ensures req.deploymentId in RowsAfter(rows, req, trace) <==> Inserts(trace)
  {
    if trace != [] {
      var shorter, e := trace[..|trace| - 1], trace[|trace| - 1];
      OnlyInsertCreates(rows, req, shorter);
      RowsGrow(RowsAfter(rows, req, shorter), req, e);
      if Inserts(trace) {
        var i :| 0 <= i < |trace| && trace[i].Insert? && trace[i].db.Took();
        assert i == |trace| - 1 || shorter[i] == trace[i];
      }
      if Inserts(shorter) {
        var i :| 0 <= i < |shorter| && shorter[i].Insert? && shorter[i].db.Took();
        assert trace[i] == shorter[i];
      }
    }
  }

  lemma DeliveryInserts(req: BuildRequest, limit: int, env: Env)
    ensures Inserts(Delivery(req, limit, env)) <==> env.granted && req.retryCount == 0 && env.insert.Took()
  {
    var trace := Delivery(req, limit, env);
    if env.granted && req.retryCount == 0 {
      assert trace[1] == Insert(env.insert);
    }
    if Inserts(trace) {
      NoOtherInsert(req, limit, env);
    }
  }

  predicate NoInsert(trace: seq<Effect>) { forall i | 0 <= i < |trace| :: !trace[i].Insert? }

  lemma NoOtherInsert(req: BuildRequest, limit: int, env: Env)
    ensures var trace := Delivery(req, limit, env);
            forall i | 0 <= i < |trace| && trace[i].Insert? ::
              env.granted && req.retryCount == 0 && trace[i] == Insert(env.insert)
  {
    BuildInsertsNothing(req, env);
    ClosingInsertsNothing(req, limit, env, Attempt(req, env).ok);
    hide Build, Closing;
  }

  lemma BuildInsertsNothing(req: BuildRequest, env: Env)
    ensures NoInsert(Build(req, env).trace)
  {}

  lemma ClosingInsertsNothing(req: BuildRequest, limit: int, env: Env, ok: bool)
    ensures NoInsert(Closing(req, limit, env, ok))
  {
    hide RepublishOutcome, LimitReached, Retry;
  }

  lemma NoInsertNoSuccess(req: BuildRequest, env: Env)
    requires req.retryCount == 0 && !(env.granted && env.insert.Took())
    ensures !Attempt(req, env).ok
  {
    hide Build;
  }

  lemma SmoothSucceeds(rows: Rows, req: BuildRequest)
    requires req.deploymentId in rows || req.retryCount == 0
    ensures Attempt(req, Seen(SMOOTH, rows, req)).ok
  {}

  // ---------- The message loop ----------

  // A well-formed message for this deployment.
  predicate About(m: Envelope, id: string) { Receive(m).Ok? && Receive(m).value.deploymentId == id }

  /** Some delivery of this turn or a later one completes the deployment's job. */
  ghost predicate Completes(s: Shop, after: Shop, id: string) {
    exists j | |s.done| <= j < |after.done| :: after.done[j].deploymentId == id
  }

  ghost predicate CanComplete(s: Shop, id: string, limit: int) {
    exists tape: Tape, n: nat :: Completes(s, Turns(s, limit, tape, 0, n), id)
  }

  // A message whose delivery finds a row, or may insert it; ids are those with a row.
  predicate Promising(ids: set<string>, m: Envelope, id: string) {
    About(m, id) && (id in ids || Receive(m).value.retryCount == 0)
  }

  // The row that a delivery may insert.
  function Insertable(m: Envelope): set<string> {
    if Receive(m).Ok? && Receive(m).value.retryCount == 0 then {Receive(m).value.deploymentId} else {}
  }

  /** A message that can only fail, and whose retry is not a valid message, stays at the head for ever. */
  predicate Blocks(ids: set<string>, m: Envelope, limit: int) {
    && limit > MIN_INT64
    && Receive(m).Ok? && Receive(m).value.retryCount as int == MAX_INT64 && Receive(m).value.deploymentId !in ids
  }

  /** Some message of the deployment can be processed, and no message before it blocks the queue. */
  predicate Reachable(ids: set<string>, jobs: seq<Envelope>, id: string, limit: int)
    decreases |jobs|
  {
    && jobs != []
    && (Promising(ids, jobs[0], id)
        || (!Blocks(ids, jobs[0], limit) && Reachable(ids + Insertable(jobs[0]), jobs[1..], id, limit)))
  }

  ghost predicate Hopeless(s: Shop, id: string, limit: int) { !Reachable(s.rows.Keys, s.jobs, id, limit) }

  lemma {:induction false} ReachableGrows(ids: set<string>, ids': set<string>, jobs: seq<Envelope>, more: seq<Envelope>, id: string, limit: int)
    requires ids <= ids' && Reachable(ids, jobs, id, limit)
    ensures Reachable(ids', jobs + more, id, limit)
    decreases |jobs|
  {
    hide Receive;
    assert (jobs + more)[1..] == jobs[1..] + more;
    if !Promising(ids, jobs[0], id) {
      ReachableGrows(ids + Insertable(jobs[0]), ids' + Insertable(jobs[0]), jobs[1..], more, id, limit);
    }
  }

  /** A retry at the end of the queue gives no new hope. */
  lemma {:induction false} RetryGivesNoHope(ids: set<string>, jobs: seq<Envelope>, retry: Envelope, id: string, limit: int)
    requires Reachable(ids, jobs + [retry], id, limit)
    requires Receive(retry).Ok? && Receive(retry).value.retryCount != 0 && (About(retry, id) ==> id !in ids)
    ensures Reachable(ids, jobs, id, limit)
    decreases |jobs|
  {
    hide Receive;
    if jobs == [] {
      assert (jobs + [retry])[1..] == [];
      assert !Reachable(ids + Insertable(retry), [], id, limit);
    } else if !Promising(ids, jobs[0], id) {
      assert (jobs + [retry])[1..] == jobs[1..] + [retry];
      RetryGivesNoHope(ids + Insertable(jobs[0]), jobs[1..], retry, id, limit);
    }
  }

  lemma RetriableHead(ids: set<string>, m: Envelope, id: string, limit: int)
    requires Retriable(m)
    ensures !Blocks(ids, m, limit) && (id in ids + Insertable(m) && id !in ids ==> Promising(ids, m, id))
  {
    hide Receive;
  }

  lemma {:induction false} ReachableIsPromising(ids: set<string>, jobs: seq<Envelope>, id: string, limit: int)
    requires Reachable(ids, jobs, id, limit) && forall m | m in jobs :: Retriable(m)
    ensures exists m | m in jobs :: Promising(ids, m, id)
    decreases |jobs|
  {
    hide Receive, Retriable, Blocks, Insertable, About;
    if !Promising(ids, jobs[0], id) {
      RetriableHead(ids, jobs[0], id, limit);
      ReachableIsPromising(ids + Insertable(jobs[0]), jobs[1..], id, limit);
      var m :| m in jobs[1..] && Promising(ids + Insertable(jobs[0]), m, id);
      assert m in jobs && Promising(ids, m, id);
    }
  }

  lemma {:induction false} PromisingIsReachable(ids: set<string>, jobs: seq<Envelope>, m: Envelope, id: string, limit: int)
    requires m in jobs && Promising(ids, m, id) && forall x | x in jobs :: Retriable(x)
    ensures Reachable(ids, jobs, id, limit)
    decreases |jobs|
  {
    hide Receive, Retriable, Blocks, Insertable, About;
    if m != jobs[0] {
      RetriableHead(ids, jobs[0], id, limit);
      PromisingIsReachable(ids + Insertable(jobs[0]), jobs[1..], m, id, limit);
    }
  }

  /** Without a message at the largest count it is enough that one is promising. */
  lemma ReachableExactly(ids: set<string>, jobs: seq<Envelope>, id: string, limit: int)
    requires forall m | m in jobs :: Retriable(m)
    ensures Reachable(ids, jobs, id, limit) <==> exists m | m in jobs :: Promising(ids, m, id)
  {
    hide Reachable, Retriable, Promising;
    if Reachable(ids, jobs, id, limit) {
      ReachableIsPromising(ids, jobs, id, limit);
    }
    if m :| m in jobs && Promising(ids, m, id) {
      PromisingIsReachable(ids, jobs, m, id, limit);
    }
  }

  lemma {:induction false} RowsOfOthers(rows: Rows, req: BuildRequest, trace: seq<Effect>, id: string)
    ensures rows.Keys <= RowsAfter(rows, req, trace).Keys
    ensures id != req.deploymentId ==> (id in RowsAfter(rows, req, trace) <==> id in rows)
  {
    if trace != [] {
      RowsOfOthers(rows, req, trace[..|trace| - 1], id);
      RowsGrow(RowsAfter(rows, req, trace[..|trace| - 1]), req, trace[|trace| - 1]);
    }
  }

  // What a turn leaves of a queue: the message it took or not, and perhaps its retry.
  lemma TurnLeaves(s: Shop, limit: int, env: Env) returns (front: seq<Envelope>, back: seq<Envelope>)
    requires s.jobs != [] && Receive(s.jobs[0]).Ok?
    ensures Turn(s, limit, env).jobs == front + back && (front == s.jobs || front == s.jobs[1..])
    ensures back == [] || (|back| == 1 && Receive(back[0]) == Ok(Retry(Receive(s.jobs[0]).value)) && Retry(Receive(s.jobs[0]).value).retryCount > 0)
  {
    hide Publishing, Receive, Valid, Attempt, LimitReached, RowsAfter, Updates, Delivery, Turn;
    var m, req := s.jobs[0], Receive(s.jobs[0]).value;
    var seen, rest, after := Seen(env, s.rows, req), s.jobs[1..], Turn(s, limit, env).jobs;
    TurnQueues(s, limit, env);
    ReceivedIsValid(m);
    PublishedIsReceived(Retry(req));
    CountNotNegative(req);
    CountNotNegative(Retry(req));
    back := if Attempt(req, seen).ok || LimitReached(req, limit) || !RepublishOutcome(req, seen).Arrived() then [] else [Publishing(Retry(req)).value];
    front := if |after| == |rest| + |back| then rest else s.jobs;
  }

  lemma CountNotNegative(req: BuildRequest)
    ensures Valid(req) ==> req.retryCount >= 0
  {}

  // The rows after a turn.
  lemma TurnInserts(s: Shop, limit: int, env: Env)
    requires s.jobs != []
    ensures s.rows.Keys <= Turn(s, limit, env).rows.Keys <= s.rows.Keys + Insertable(s.jobs[0])
    ensures Receive(s.jobs[0]).Ok? && env.granted && env.insert.Took() ==> Turn(s, limit, env).rows.Keys == s.rows.Keys + Insertable(s.jobs[0])
  {
    hide Publishing, Receive, Valid, Attempt, LimitReached, RowsAfter, Updates, Delivery, Turn;
    if Receive(s.jobs[0]).Err? {
      RejectedTurn(s, limit, env);
    } else {
      var req := Receive(s.jobs[0]).value;
      var trace := Delivery(req, limit, Seen(env, s.rows, req));
      TurnQueues(s, limit, env);
      forall id ensures (id in s.rows ==> id in RowsAfter(s.rows, req, trace))
                        && (id != req.deploymentId ==> (id in RowsAfter(s.rows, req, trace) <==> id in s.rows))
      {
        RowsOfOthers(s.rows, req, trace, id);
      }
      if req.deploymentId !in s.rows {
        OnlyInsertCreates(s.rows, req, trace);
        DeliveryInserts(req, limit, Seen(env, s.rows, req));
      }
    }
  }

  /** A blocking message comes back, and leaves nothing. */
  lemma BlockedTurn(s: Shop, limit: int, env: Env)
    requires s.jobs != [] && Blocks(s.rows.Keys, s.jobs[0], limit)
    ensures Turn(s, limit, env).jobs == s.jobs && Turn(s, limit, env).done == s.done
    ensures Turn(s, limit, env).rows.Keys == s.rows.Keys
  {
    hide Publishing, Receive, Valid, Attempt, RowsAfter, Updates, Delivery, Turn, Seen;
    var m, req := s.jobs[0], Receive(s.jobs[0]).value;
    TurnInserts(s, limit, env);
    TurnQueues(s, limit, env);
    SuccessIsPossible(s.rows, req);
    ReceivedIsValid(m);
    RetryValidity(req);
    assert !Attempt(req, Seen(env, s.rows, req)).ok;
    assert !LimitReached(req, limit);
    assert RepublishOutcome(req, Seen(env, s.rows, req)) == Refused(false);
    assert [m] + (s.jobs[1..] + []) == s.jobs;
  }

  /** A turn of a hopeless queue completes nothing for the deployment. */
  lemma HopelessTurnFinishesNothing(s: Shop, id: string, limit: int, env: Env)
    requires Hopeless(s, id, limit) && s.jobs != []
    ensures s.done <= Turn(s, limit, env).done && !Completes(s, Turn(s, limit, env), id)
  {
    hide Publishing, Receive, Valid, Attempt, LimitReached, RowsAfter, Updates, Delivery, Turn, Seen;
    var m := s.jobs[0];
    assert !Promising(s.rows.Keys, m, id);
    if Receive(m).Err? {
      RejectedTurn(s, limit, env);
    } else {
      TurnQueues(s, limit, env);
      SuccessIsPossible(s.rows, Receive(m).value);
    }
  }

  // What follows the head of a hopeless queue, with or without a retry of the head behind it.
  lemma HopelessRest(ids: set<string>, ids': set<string>, jobs: seq<Envelope>, front: seq<Envelope>, back: seq<Envelope>, id: string, limit: int)
    requires jobs != [] && !Blocks(ids, jobs[0], limit) && !Reachable(ids, jobs, id, limit) && ids <= ids' <= ids + Insertable(jobs[0])
    requires front == jobs || front == jobs[1..]
    requires back == [] || (|back| == 1 && Receive(back[0]).Ok? && Receive(back[0]).value.retryCount != 0
                            && (About(back[0], id) ==> About(jobs[0], id)))
    ensures !Reachable(ids', front + back, id, limit)
  {
    hide Receive;
    var all, rest := ids + Insertable(jobs[0]), jobs[1..];
    assert rest + back + [] == rest + back && rest + [] == rest && (back != [] ==> back == [back[0]]);
    if Reachable(ids', front + back, id, limit) {
      if front == jobs {
        assert (front + back)[1..] == rest + back;
        ReachableGrows(ids' + Insertable(jobs[0]), all, rest + back, [], id, limit);
      } else {
        ReachableGrows(ids', all, rest + back, [], id, limit);
      }
      if back != [] {
        RetryGivesNoHope(all, rest, back[0], id, limit);
      }
    }
  }

  /** And it stays hopeless. */
  lemma HopelessTurn(s: Shop, id: string, limit: int, env: Env)
    requires Hopeless(s, id, limit) && s.jobs != []
    ensures Hopeless(Turn(s, limit, env), id, limit)
  {
    hide Receive, Turn, Reachable, Retry, Blocks;
    TurnInserts(s, limit, env);
    if Blocks(s.rows.Keys, s.jobs[0], limit) {
      BlockedTurn(s, limit, env);
    } else if Receive(s.jobs[0]).Err? {
      RejectedTurn(s, limit, env);
      var after := Turn(s, limit, env);
      HopelessRest(s.rows.Keys, after.rows.Keys, s.jobs, after.jobs, [], id, limit);
      assert after.jobs + [] == after.jobs;
    } else {
      var req := Receive(s.jobs[0]).value;
      var front, back := TurnLeaves(s, limit, env);
      SameDeployment(req);
      HopelessRest(s.rows.Keys, Turn(s, limit, env).rows.Keys, s.jobs, front, back, id, limit);
    }
  }

  lemma SameDeployment(req: BuildRequest)
    ensures Retry(req).deploymentId == req.deploymentId
  {}

  /** While no message of the deployment can be reached, no delivery ever completes it, however the environment behaves. */
  lemma {:induction false} HopelessForever(s: Shop, id: string, limit: int, tape: Tape, at: nat, n: nat)
    requires Hopeless(s, id, limit)
    ensures var after := Turns(s, limit, tape, at, n); Hopeless(after, id, limit) && s.done <= after.done && !Completes(s, after, id)
    decreases n
  {
    hide Hopeless, Turn;
    if n != 0 && s.jobs != [] {
      HopelessTurnFinishesNothing(s, id, limit, tape(at));
      HopelessTurn(s, id, limit, tape(at));
      HopelessForever(Turn(s, limit, tape(at)), id, limit, tape, at + 1, n - 1);
    }
  }

  // With everything working the head of the queue is dealt with, and the next one comes up.
  lemma SmoothTurn(s: Shop, limit: int)
    requires s.jobs != [] && !Blocks(s.rows.Keys, s.jobs[0], limit)
    ensures var after := Turn(s, limit, SMOOTH); s.jobs[1..] <= after.jobs && s.done <= after.done
    ensures Receive(s.jobs[0]).Ok? && Promising(s.rows.Keys, s.jobs[0], Receive(s.jobs[0]).value.deploymentId) ==>
              Turn(s, limit, SMOOTH).done == s.done + [JobOf(Receive(s.jobs[0]).value)]
  {
    hide Publishing, Receive, Valid, Attempt, RowsAfter, Updates, Delivery, Turn, Seen;
    var m := s.jobs[0];
    if Receive(m).Err? {
      RejectedTurn(s, limit, SMOOTH);
    } else {
      var req := Receive(m).value;
      TurnQueues(s, limit, SMOOTH);
      SeenKeepsFaults(SMOOTH, s.rows, req);
      ReceivedIsValid(m);
      RetryStaysPublishable(req);
      PublishedIsReceived(Retry(req));
      if Promising(s.rows.Keys, m, req.deploymentId) {
        SmoothSucceeds(s.rows, req);
      }
      SmoothRepublish(req, s.rows);
    }
  }

  lemma SmoothRepublish(req: BuildRequest, rows: Rows)
    ensures Seen(SMOOTH, rows, req).republish.Queued? && Seen(SMOOTH, rows, req).settle
  {}

  /** A message that can be reached completes when its turn comes. */
  lemma {:induction false} ReachableCompletes(s: Shop, id: string, limit: int, tape: Tape, at: nat, front: nat) returns (n: nat)
    requires front <= |s.jobs| && Reachable(s.rows.Keys, s.jobs[..front], id, limit) && forall k: nat :: tape(k) == SMOOTH
    ensures Completes(s, Turns(s, limit, tape, at, n), id)
    decreases front
  {
    hide Receive, Turn, SMOOTH, Blocks, Insertable, Promising;
    var m, first := s.jobs[0], Turn(s, limit, tape(at));
    assert s.jobs[..front][0] == m && s.jobs[..front][1..] == s.jobs[1..][..front - 1];
    if Promising(s.rows.Keys, m, id) {
      PromisingIsOwn(s.rows.Keys, m, id, limit);
      SmoothTurn(s, limit);
      assert first.done[|s.done|].deploymentId == id;
      assert Turns(first, limit, tape, at + 1, 0) == first;
      n := 1;
    } else {
      SmoothTurn(s, limit);
      TurnInserts(s, limit, SMOOTH);
      SmoothInserts();
      RejectedInsertsNothing(m);
      assert first.jobs[..front - 1] == s.jobs[1..][..front - 1];
      assert s.jobs[1..][..front - 1] + [] == s.jobs[1..][..front - 1];
      ReachableGrows(s.rows.Keys + Insertable(m), first.rows.Keys, s.jobs[1..][..front - 1], [], id, limit);
      var later := ReachableCompletes(first, id, limit, tape, at + 1, front - 1);
      var after := Turns(first, limit, tape, at + 1, later);
      var j :| |first.done| <= j < |after.done| && after.done[j].deploymentId == id;
      assert |s.done| <= j;
      n := later + 1;
    }
  }

  lemma PromisingIsOwn(ids: set<string>, m: Envelope, id: string, limit: int)
    requires Promising(ids, m, id)
    ensures Receive(m).Ok? && Receive(m).value.deploymentId == id && !Blocks(ids, m, limit)
    ensures JobOf(Receive(m).value).deploymentId == id
  {
    hide Receive;
  }

  lemma SmoothInserts()
    ensures SMOOTH.granted && SMOOTH.insert.Took()
  {}

  lemma RejectedInsertsNothing(m: Envelope)
    ensures Receive(m).Err? ==> Insertable(m) == {}
  {
    hide Receive;
  }

  /**
   For every queue, duplicates and messages at the largest count included: some
   course of events completes a job of the deployment exactly when one of its
   messages has count 0, or its row is there by then, and no message before it
   blocks the queue.
   */
  lemma CompletionExactly(s: Shop, id: string, limit: int)
    ensures CanComplete(s, id, limit) <==> Reachable(s.rows.Keys, s.jobs, id, limit)
  {
    hide Completes, Turns, Reachable;
    if Reachable(s.rows.Keys, s.jobs, id, limit) {
      var tape: Tape := _ => SMOOTH;
      assert s.jobs[..|s.jobs|] == s.jobs;
      var n := ReachableCompletes(s, id, limit, tape, 0, |s.jobs|);
    } else {
      forall tape: Tape, n: nat ensures !Completes(s, Turns(s, limit, tape, 0, n), id) {
        HopelessForever(s, id, limit, tape, 0, n);
      }
    }
  }

  // The copies that a first attempt leaves when it fails before its insert.
  lemma CopiesLeft(s: Shop, req: BuildRequest, limit: int, env: Env)
    requires Valid(req) && req.retryCount == 0 && s.jobs == [Publishing(req).value] && req.deploymentId !in s.rows
    requires !(env.granted && env.insert.Took())
    ensures var after := Turn(s, limit, env);
            && req.deploymentId !in after.rows
            && (forall m | m in after.jobs :: m == s.jobs[0] || (Receive(m).Ok? && Receive(m).value.retryCount == 1))
            && (s.jobs[0] in after.jobs <==> !env.settle || (limit > 1 && !env.republish.Returned()))
  {
    hide Publishing, Receive, Valid, Attempt, RowsAfter, Updates, Delivery, Turn;
    var seen := Seen(env, s.rows, req);
    PublishedIsReceived(req);
    RetryStaysPublishable(req);
    PublishedIsReceived(Retry(req));
    TurnQueues(s, limit, env);
    SeenKeepsFaults(env, s.rows, req);
    NoInsertNoSuccess(req, seen);
    OnlyInsertCreates(s.rows, req, Delivery(req, limit, seen));
    DeliveryInserts(req, limit, seen);
  }

  /**
   A first attempt that fails before its insert takes effect: the job can still
   complete exactly when the message with count 0 comes back, because its ack
   is lost or the retry's publish reports an error. A retry that is published
   and acked as usual cannot.
   */
  lemma LostFirstAttempt(s: Shop, req: BuildRequest, limit: int, env: Env)
    requires Valid(req) && req.retryCount == 0 && s.jobs == [Publishing(req).value] && req.deploymentId !in s.rows
    requires !(env.granted && env.insert.Took())
    ensures CanComplete(Turn(s, limit, env), req.deploymentId, limit) <==> !env.settle || (limit > 1 && !env.republish.Returned())
  {
    hide Publishing, Receive, Valid, Turn, CanComplete;
    PublishedIsReceived(req);
    CopiesLeft(s, req, limit, env);
    var after := Turn(s, limit, env);
    CompletionExactly(after, req.deploymentId, limit);
    ReachableExactly(after.rows.Keys, after.jobs, req.deploymentId, limit);
    if s.jobs[0] in after.jobs {
      assert Promising(after.rows.Keys, s.jobs[0], req.deploymentId);
    }
  }
}
