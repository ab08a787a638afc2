/**
 One job from its first delivery to its end: how often it is attempted, and
 that no job is lost or doubled as long as nothing fails.
 */
module JobRuns {
  import opened Wrappers
  import opened Contract
  import opened Faults
  import opened Status
  import opened Worker

  datatype End = Open | Succeeded | GivenUp

  // request is what the job's message carries after the run.
  datatype Run = Run(rows: Rows, updates: seq<Update>, attempts: nat, request: BuildRequest, end: End)

  /** The job's deliveries one after the other, at most n of them. */
  function RunJob(rows: Rows, req: BuildRequest, limit: int, tape: Tape, at: nat, n: nat): Run
    decreases n
  {
    if n == 0 then Run(rows, [], 0, req, Open)
    else
      var env := Seen(tape(at), rows, req);
      var trace := Delivery(req, limit, env);
      var after, said := RowsAfter(rows, req, trace), Updates(trace);
      if Attempt(req, env).ok then Run(after, said, 1, req, Succeeded)
      else if LimitReached(req, limit) then Run(after, said, 1, req, GivenUp)
      else
        var rest := RunJob(after, NextRequest(req, env), limit, tape, at + 1, n - 1);
        rest.(updates := said + rest.updates, attempts := rest.attempts + 1)
  }

  // A refused republish leaves the old message in the queue.
  function NextRequest(req: BuildRequest, env: Env): BuildRequest {
    if RepublishOutcome(req, env).Returned() then Retry(req) else req
  }

  // No crash and no lost ack, and a retry is queued exactly when its publish returned.
  predicate Orderly(env: Env) { env.settle && (env.republish.Queued? || env.republish == Refused(false)) }

  ghost predicate OrderlyTape(tape: Tape, at: nat, n: nat) {
    forall i | at <= i < at + n :: Orderly(tape(i))
  }

  /** The message loop on a queue that holds one job does exactly this run. */
  lemma {:induction false} QueueRunsJob(s: Shop, req: BuildRequest, limit: int, tape: Tape, at: nat, n: nat)
    requires Valid(req) && s.jobs == [Publishing(req).value]
    requires OrderlyTape(tape, at, n)
    ensures var run, after := RunJob(s.rows, req, limit, tape, at, n), Turns(s, limit, tape, at, n);
            && Valid(run.request) && JobOf(run.request) == JobOf(req)
            && after.rows == run.rows && after.updates == s.updates + run.updates
            && after.jobs == (if run.end.Open? then [Publishing(run.request).value] else [])
            && after.dlq == s.dlq + (if run.end.GivenUp? then [Publishing(run.request).value] else [])
            && after.done == s.done + (if run.end.Succeeded? then [JobOf(req)] else [])
    decreases n
  {
    hide Valid, Publishing, Receive, Attempt, RowsAfter, Updates, LimitReached, Seen, Turn, Delivery;
    PublishedIsReceived(req);
    if n != 0 {
      var env := Seen(tape(at), s.rows, req);
      SeenKeepsFaults(tape(at), s.rows, req);
      TurnQueues(s, limit, tape(at));
      assert Orderly(tape(at));
      var first := Turn(s, limit, tape(at));
      if Attempt(req, env).ok || LimitReached(req, limit) {
        assert first.jobs == [];
      } else {
        var next := NextRequest(req, env);
        PublishedIsReceived(next);
        assert Valid(next) && first.jobs == [Publishing(next).value];
        QueueRunsJob(first, next, limit, tape, at + 1, n - 1);
      }
    }
  }

  lemma SeenKeepsFaults(env: Env, rows: Rows, req: BuildRequest)
    ensures Seen(env, rows, req).settle == env.settle && Seen(env, rows, req).republish == env.republish
  {}

  // ---------- How often a job is attempted ----------

  predicate Clean(env: Env) { env.settle && env.republish.Queued? }

  ghost predicate CleanTape(tape: Tape, at: nat, n: nat) {
    forall i | at <= i < at + n :: Clean(tape(i))
  }

  /** max(1, limit - r) */
  function AttemptsLeft(req: BuildRequest, limit: int): nat {
    if limit - req.retryCount as int < 1 then 1 else limit - req.retryCount as int
  }

  lemma {:induction false} BoundedAttempts(rows: Rows, req: BuildRequest, limit: int, tape: Tape, at: nat, n: nat)
    requires Valid(req) && req.retryCount as int < MAX_INT64 && limit <= MAX_INT64
    requires CleanTape(tape, at, n)
    ensures var run := RunJob(rows, req, limit, tape, at, n);
            run.attempts <= AttemptsLeft(req, limit) && (n >= AttemptsLeft(req, limit) ==> !run.end.Open?)
    decreases n
  {
    hide Valid, Attempt, RowsAfter, Updates, Delivery, Publishing, Receive;
    if n != 0 {
      var env := Seen(tape(at), rows, req);
      assert Clean(tape(at)) && env.republish == tape(at).republish;
      if !Attempt(req, env).ok && !LimitReached(req, limit) {
        RetryStaysPublishable(req);
        PublishedIsReceived(Retry(req));
        BoundedAttempts(RowsAfter(rows, req, Delivery(req, limit, env)), Retry(req), limit, tape, at + 1, n - 1);
      }
    }
  }

  /** At the top of the counter a failing job is redelivered for ever: its retry is not a valid message. */
  lemma {:induction false} WrappedCounterNeverEnds(rows: Rows, req: BuildRequest, limit: int, tape: Tape, at: nat, n: nat)
    requires Valid(req) && req.retryCount as int == MAX_INT64 && limit > MIN_INT64
    requires forall i | at <= i < at + n :: !tape(i).granted
    ensures var run := RunJob(rows, req, limit, tape, at, n);
            run.attempts == n && run.end.Open? && run.request == req
    decreases n
  {
    hide Valid, RowsAfter, Updates, Delivery, Process;
    if n != 0 {
      RetryStaysPublishable(req);
      PublishedIsReceived(Retry(req));
      assert !tape(at).granted;
      var env := Seen(tape(at), rows, req);
      WrappedCounterNeverEnds(RowsAfter(rows, req, Delivery(req, limit, env)), req, limit, tape, at + 1, n - 1);
    }
  }

  ghost predicate AlwaysEnds(req: BuildRequest, limit: int) {
    forall rows: Rows, tape: Tape, n: nat | CleanTape(tape, 0, n) && n >= AttemptsLeft(req, limit) ::
      !RunJob(rows, req, limit, tape, 0, n).end.Open?
  }

  /** Every fault-free run of a job ends, unless its counter is at the top. */
  lemma EndsUnlessCounterWraps(req: BuildRequest, limit: int)
    requires Valid(req) && MIN_INT64 < limit <= MAX_INT64
    ensures AlwaysEnds(req, limit) <==> req.retryCount as int != MAX_INT64
  {
    hide Valid, RunJob;
    if req.retryCount as int != MAX_INT64 {
      forall rows: Rows, tape: Tape, n: nat | CleanTape(tape, 0, n) && n >= AttemptsLeft(req, limit)
        ensures !RunJob(rows, req, limit, tape, 0, n).end.Open?
      {
        BoundedAttempts(rows, req, limit, tape, 0, n);
      }
    } else {
      var n := AttemptsLeft(req, limit);
      WrappedCounterNeverEnds(map[], req, limit, _ => REFUSED, 0, n);
      assert CleanTape(_ => REFUSED, 0, n);
    }
  }

  // A delivery whose credential is refused, with every other call working.
  const REFUSED := Env(false, Fine, Fine, Queued, false, Fine, false, false, None, Built, false, None,
                       Fine, Fine, Queued, Fine, Queued, Queued, true)

  // A delivery where every call works.
  const SMOOTH := Env(true, Fine, Fine, Queued, true, Fine, true, true, Some(false), Built, false, None,
                      Fine, Fine, Queued, Fine, Queued, Queued, true)

  // ---------- No job appears or disappears ----------

  // The job a message stands for; None for a message the worker rejects.
  function Key(m: Envelope): Option<BuildRequest> {
    match Receive(m) case Ok(req) => Some(JobOf(req)) case Err(_) => None
  }

  function One(b: bool): nat { if b then 1 else 0 }

  // How often a job occurs among messages.
  function Count(ms: seq<Envelope>, key: Option<BuildRequest>): nat {
    if ms == [] then 0 else Count(ms[..|ms| - 1], key) + One(Key(ms[|ms| - 1]) == key)
  }

  function CountDone(done: seq<BuildRequest>, key: Option<BuildRequest>): nat {
    if done == [] then 0 else CountDone(done[..|done| - 1], key) + One(Some(done[|done| - 1]) == key)
  }

  lemma {:induction false} CountConcat(a: seq<Envelope>, b: seq<Envelope>, key: Option<BuildRequest>)
    ensures Count(a + b, key) == Count(a, key) + Count(b, key)
  {
    hide Key;
    if b == [] {
      assert a + b == a;
    } else {
      CountConcat(a, b[..|b| - 1], key);
      assert (a + b)[..|a + b| - 1] == a + b[..|b| - 1];
    }
  }

  lemma CountOfOne(m: Envelope, key: Option<BuildRequest>)
    ensures Count([m], key) == One(Key(m) == key)
  {
    hide Key;
    assert [m][..0] == [];
  }

  lemma CountMoves(m: Envelope, rest: seq<Envelope>, dlq: seq<Envelope>, key: Option<BuildRequest>)
    ensures Count([m] + rest, key) == One(Key(m) == key) + Count(rest, key)
    ensures Count(rest + [m], key) == Count(rest, key) + One(Key(m) == key)
    ensures Count(dlq + [m], key) == Count(dlq, key) + One(Key(m) == key)
  {
    hide Key, Count;
    CountConcat([m], rest, key);
    CountConcat(rest, [m], key);
    CountConcat(dlq, [m], key);
    CountOfOne(m, key);
  }

  lemma CountDoneAppend(done: seq<BuildRequest>, job: BuildRequest, key: Option<BuildRequest>)
    ensures CountDone(done + [job], key) == CountDone(done, key) + One(Some(job) == key)
  {
    assert (done + [job])[..|done|] == done;
  }

  /** How often a job is queued, dead-lettered or finished. */
  function Ledger(s: Shop, key: Option<BuildRequest>): nat {
    Count(s.jobs, key) + Count(s.dlq, key) + CountDone(s.done, key)
  }

  /**
   A fault-free turn moves one job between queue, dead letters and finished
   work; it neither loses nor doubles any, valid or not.
   */
  lemma TurnConserves(s: Shop, limit: int, env: Env, key: Option<BuildRequest>)
    requires s.jobs != [] && Clean(env)
    requires Receive(s.jobs[0]).Ok? ==> Receive(s.jobs[0]).value.retryCount as int < MAX_INT64
    ensures Ledger(Turn(s, limit, env), key) == Ledger(s, key)
  {
    hide Receive, Publishing, Attempt, Valid, LimitReached, Seen, Delivery, Turn, Count, CountDone, Key;
    var m, rest := s.jobs[0], s.jobs[1..];
    assert s.jobs == [m] + rest;
    CountMoves(m, rest, s.dlq, key);
    if Receive(m).Err? {
      RejectedTurn(s, limit, env);
    } else {
      var req := Receive(m).value;
      SeenKeepsFaults(env, s.rows, req);
      TurnQueues(s, limit, env);
      SameJob(m);
      CountDoneAppend(s.done, JobOf(req), key);
      CountMoves(Publishing(Retry(req)).value, rest, s.dlq, key);
    }
  }

  lemma RejectedTurn(s: Shop, limit: int, env: Env)
    requires s.jobs != [] && Receive(s.jobs[0]).Err?
    ensures Turn(s, limit, env) == if env.settle then s.(jobs := s.jobs[1..], dlq := s.dlq + [s.jobs[0]]) else s
  {
    hide Receive;
    assert [s.jobs[0]] + s.jobs[1..] == s.jobs;
  }

  /** A message and the retry it leads to stand for the same job. */
  lemma SameJob(m: Envelope)
    requires Receive(m).Ok? && Receive(m).value.retryCount as int < MAX_INT64
    ensures var req := Receive(m).value;
            && Valid(Retry(req)) && Publishing(Retry(req)).Ok?
            && Key(m) == Some(JobOf(req)) && Key(Publishing(Retry(req)).value) == Some(JobOf(req))
  {
    hide Receive, Publishing, Valid;
    var req := Receive(m).value;
    ReceivedIsValid(m);
    RetryStaysPublishable(req);
    PublishedIsReceived(Retry(req));
  }

  lemma HeadIsRetriable(s: Shop)
    requires s.jobs != [] && Retriable(s.jobs[0])
    ensures Receive(s.jobs[0]).Ok? ==> Receive(s.jobs[0]).value.retryCount as int < MAX_INT64
  {}

  /** Hence no fault-free run of the worker loses or doubles a job. */
  lemma {:induction false} RunConserves(s: Shop, limit: int, tape: Tape, at: nat, n: nat, key: Option<BuildRequest>)
    requires CleanTape(tape, at, n) && limit <= MAX_INT64
    requires forall m | m in s.jobs :: Retriable(m)
    ensures Ledger(Turns(s, limit, tape, at, n), key) == Ledger(s, key)
    decreases n
  {
    hide Turn, Ledger, Retriable;
    if n != 0 && s.jobs != [] {
      assert Clean(tape(at)) && Retriable(s.jobs[0]);
      HeadIsRetriable(s);
      TurnConserves(s, limit, tape(at), key);
      TurnKeepsRetriable(s, limit, tape(at));
      RunConserves(Turn(s, limit, tape(at)), limit, tape, at + 1, n - 1, key);
    }
  }

  predicate Retriable(m: Envelope) {
    Receive(m).Ok? ==> Receive(m).value.retryCount as int < MAX_INT64
  }

  /** A retry is only published below the limit, so its counter cannot have reached the top. */
  lemma TurnKeepsRetriable(s: Shop, limit: int, env: Env)
    requires s.jobs != [] && limit <= MAX_INT64
    requires forall m | m in s.jobs :: Retriable(m)
    ensures forall m | m in Turn(s, limit, env).jobs :: Retriable(m)
  {
    hide Receive, Publishing, Attempt, Valid, Seen, Delivery, Turn;
    var m := s.jobs[0];
    assert Retriable(m);
    if Receive(m).Err? {
      RejectedTurn(s, limit, env);
    } else {
      var req := Receive(m).value;
      TurnQueues(s, limit, env);
      ReceivedIsValid(m);
      RetryStaysPublishable(req);
      PublishedIsReceived(Retry(req));
    }
  }
}
