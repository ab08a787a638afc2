/**
 The order in which one delivery may touch the outside: which calls need which
 earlier ones. Checked call by call, so that every suffix of a delivery is
 covered and a crash may fall between any two calls.
 */
module Protocol {
  import opened Wrappers
  import opened Contract
  import opened Faults
  import opened Status
  import opened Worker

  // What a delivery has achieved so far.
  datatype Progress = Progress(
    granted: bool,    // holds a clone credential
    seen: bool,       // has seen the worker's row
    finished: bool,   // has marked that row finished
    gaveUp: bool,     // failed at the retry limit
    secured: bool,    // the job is finished, or its retry was published
    settled: bool)    // acked or nacked

  const NO_PROGRESS := Progress(false, false, false, false, false, false)

  /** What may be announced, and when. */
  predicate Announceable(req: BuildRequest, c: Progress, u: Update) {
    && u.deploymentId == req.deploymentId
    && match u.status
       case Building => c.granted
       case Success => c.granted && c.finished
       case Canceled => c.gaveUp
       case _ => false
  }

  /** The progress after one more call, or None when the call is out of order. */
  function Advance(req: BuildRequest, limit: int, c: Progress, e: Effect): Option<Progress> {
    if c.settled then None
    else
      var next := match e
        case FetchCredential(granted) => c.(granted := granted)
        case ReadTag(found) => c.(seen := found)
        case MarkFinished(_, db) => c.(finished := c.finished || db.Took())
        case GaveUp => c.(gaveUp := true)
        case Completed => c.(secured := true)
        case Republish(_, p) => c.(secured := c.secured || p.Returned())
        case Ack(_) => c.(settled := true)
        case Discard(_) => c.(settled := true)
        case Requeue(_) => c.(settled := true)
        case _ => c;
      if InOrder(req, limit, c, e) then Some(next) else None
  }

  predicate InOrder(req: BuildRequest, limit: int, c: Progress, e: Effect) {
    match e
    case FetchCredential(_) => true
    case Insert(_) => c.granted && req.retryCount == 0
    case MarkBuilding(_) => c.granted
    case ReadTag(_) => c.granted
    case MarkFailed(_, _) => c.granted
    case SetOutputUrl(_, _) => c.granted && c.seen
    case MarkFinished(_, _) => c.granted && c.seen
    case MarkCanceled(_) => c.gaveUp
    case Announce(u, _) => Announceable(req, c, u)
    case Completed => c.finished
    case GaveUp => LimitReached(req, limit)
    case Republish(next, p) => next == Retry(req) && !LimitReached(req, limit) && (p != Refused(false) ==> Valid(next))
    case Ack(_) => c.secured
    case Discard(_) => c.gaveUp
    case Requeue(_) => true
  }

  function Walk(req: BuildRequest, limit: int, c: Progress, trace: seq<Effect>): Option<Progress>
    decreases trace
  {
    if trace == [] then Some(c)
    else match Advance(req, limit, c, trace[0])
      case None => None
      case Some(next) => Walk(req, limit, next, trace[1..])
  }

  /** A stretch of calls that are all in order and end with the settlement. */
  predicate Disciplined(req: BuildRequest, limit: int, c: Progress, trace: seq<Effect>) {
    var end := Walk(req, limit, c, trace);
    end.Some? && end.value.settled
  }

  lemma {:induction false} WalkConcat(req: BuildRequest, limit: int, c: Progress, a: seq<Effect>, b: seq<Effect>)
    requires Walk(req, limit, c, a).Some?
    ensures Walk(req, limit, c, a + b) == Walk(req, limit, Walk(req, limit, c, a).value, b)
    decreases a
  {
    hide Advance;
    if a == [] {
      assert a + b == b;
    } else {
      assert (a + b)[1..] == a[1..] + b;
      WalkConcat(req, limit, Advance(req, limit, c, a[0]).value, a[1..], b);
    }
  }

  lemma WalkThen(req: BuildRequest, limit: int, c: Progress, a: Outcome, b: Outcome)
    requires Walk(req, limit, c, a.trace).Some?
    ensures Walk(req, limit, c, a.Then(b).trace) ==
              if a.ok then Walk(req, limit, Walk(req, limit, c, a.trace).value, b.trace) else Walk(req, limit, c, a.trace)
  {
    WalkConcat(req, limit, c, a.trace, b.trace);
  }

  lemma WalkOne(req: BuildRequest, limit: int, c: Progress, e: Effect)
    ensures Walk(req, limit, c, [e]) == Advance(req, limit, c, e)
  {}

  lemma PrepareWalks(req: BuildRequest, limit: int, c: Progress, env: Env)
    requires c.granted && !c.settled
    ensures Walk(req, limit, c, Prepare(req, env).trace) == Some(c)
  {
    hide Walk;
    var insert := if req.retryCount == 0 then Call(Insert(env.insert), env.insert.Fine?) else Outcome([], true);
    var mark := Call(MarkBuilding(env.building), env.building.Fine?);
    var announce := Call(AnnounceBuilding(req, env), env.announceBuilding.Returned());
    WalkNothing(req, limit, c);
    WalkOne(req, limit, c, Insert(env.insert));
    WalkOne(req, limit, c, MarkBuilding(env.building));
    WalkOne(req, limit, c, AnnounceBuilding(req, env));
    WalkThen(req, limit, c, insert, mark);
    WalkThen(req, limit, c, insert.Then(mark), announce);
  }

  lemma WalkNothing(req: BuildRequest, limit: int, c: Progress)
    ensures Walk(req, limit, c, []) == Some(c)
  {}

  // c' is c, perhaps with the row marked finished.
  predicate OnlyFinishes(c: Progress, c': Progress) { c' == c.(finished := c'.finished) }

  lemma FinishWalks(req: BuildRequest, limit: int, c: Progress, url: string, env: Env)
    requires c.granted && c.seen && !c.settled
    ensures var end := Walk(req, limit, c, Finish(req, url, env).trace);
            end.Some? && OnlyFinishes(c, end.value) && (Finish(req, url, env).ok ==> end.value.finished)
  {
    hide Walk;
    var mark := Call(MarkFinished(url, env.finished), env.finished.Fine?);
    var announce := Call(AnnounceSuccess(req, url, env), env.announceSuccess.Returned());
    WalkOne(req, limit, c, MarkFinished(url, env.finished));
    WalkOne(req, limit, c.(finished := true), AnnounceSuccess(req, url, env));
    WalkThen(req, limit, c, mark, announce);
  }

  lemma BuildWalks(req: BuildRequest, limit: int, c: Progress, env: Env)
    requires c.granted && c.seen && !c.settled
    ensures var end := Walk(req, limit, c, Build(req, env).trace);
            end.Some? && OnlyFinishes(c, end.value) && (Build(req, env).ok ==> end.value.finished)
  {
    hide Walk, Finish;
    FinishWalks(req, limit, c, "", env);
    WalkNothing(req, limit, c);
    WalkOne(req, limit, c, MarkFailed(CheckoutFailed, env.failed));
    WalkOne(req, limit, c, MarkFailed(AppDirUnresolved, env.failed));
    WalkOne(req, limit, c, MarkFailed(PrepareFailed, env.failed));
    WalkOne(req, limit, c, MarkFailed(BuildFailed, env.failed));
    WalkOne(req, limit, c, MarkFailed(ServerSideRendering, env.failed));
    if env.upload.Some? {
      FinishWalks(req, limit, c, env.upload.value, env);
      WalkOne(req, limit, c, SetOutputUrl(env.upload.value, env.url));
      WalkThen(req, limit, c, Call(SetOutputUrl(env.upload.value, env.url), env.url.Fine?), Finish(req, env.upload.value, env));
    }
  }

  lemma ProcessWalks(req: BuildRequest, limit: int, c: Progress, env: Env)
    requires c == NO_PROGRESS.(granted := true)
    ensures var end := Walk(req, limit, c, Process(req, env).trace);
            && end.Some? && end.value == c.(seen := end.value.seen, finished := end.value.finished)
            && (Process(req, env).ok ==> end.value.finished)
  {
    hide Walk, Prepare, Build;
    var prepared, read := Prepare(req, env), Call(ReadTag(env.tagRead), true);
    var rest := if env.tagRead then Build(req, env) else Fails(TagUnreadable, env);
    var d := c.(seen := env.tagRead);
    PrepareWalks(req, limit, c, env);
    WalkOne(req, limit, c, ReadTag(env.tagRead));
    WalkThen(req, limit, c, prepared, read);
    if env.tagRead {
      BuildWalks(req, limit, d, env);
    } else {
      WalkOne(req, limit, d, MarkFailed(TagUnreadable, env.failed));
    }
    WalkThen(req, limit, c, prepared.Then(read), rest);
  }

  lemma AttemptWalks(req: BuildRequest, limit: int, env: Env)
    ensures var end := Walk(req, limit, NO_PROGRESS, Attempt(req, env).trace);
            && end.Some? && !end.value.settled && !end.value.gaveUp && !end.value.secured
            && (Attempt(req, env).ok ==> end.value.finished)
  {
    hide Walk, Process;
    var c := NO_PROGRESS.(granted := env.granted);
    WalkOne(req, limit, NO_PROGRESS, FetchCredential(env.granted));
    if env.granted {
      ProcessWalks(req, limit, c, env);
    }
    WalkThen(req, limit, NO_PROGRESS, Call(FetchCredential(env.granted), env.granted), Process(req, env));
  }

  lemma ClosingWalks(req: BuildRequest, limit: int, c: Progress, env: Env, ok: bool)
    requires !c.settled && !c.gaveUp && !c.secured && (ok ==> c.finished)
    ensures Disciplined(req, limit, c, Closing(req, limit, env, ok))
  {
    hide Walk, Valid, LimitReached, Retry;
    var closing := Closing(req, limit, env, ok);
    if |closing| == 2 {
      WalkTwo(req, limit, c, closing[0], closing[1]);
    } else {
      var given := c.(gaveUp := true);
      WalkTwo(req, limit, c, closing[0], closing[1]);
      WalkTwo(req, limit, given, closing[2], closing[3]);
      WalkConcat(req, limit, c, [closing[0], closing[1]], [closing[2], closing[3]]);
      assert closing == [closing[0], closing[1]] + [closing[2], closing[3]];
    }
  }

  lemma WalkTwo(req: BuildRequest, limit: int, c: Progress, a: Effect, b: Effect)
    ensures Walk(req, limit, c, [a, b]) == match Advance(req, limit, c, a) case None => None case Some(d) => Advance(req, limit, d, b)
  {
    hide Advance;
    assert [a, b][1..] == [b];
    if Advance(req, limit, c, a).Some? {
      WalkOne(req, limit, Advance(req, limit, c, a).value, b);
    }
  }

  /** Every delivery makes its calls in order, whatever their outcomes. */
  lemma DeliveryIsDisciplined(req: BuildRequest, limit: int, env: Env)
    ensures Disciplined(req, limit, NO_PROGRESS, Delivery(req, limit, env))
  {
    hide Walk, Attempt, Closing;
    var a := Attempt(req, env);
    AttemptWalks(req, limit, env);
    ClosingWalks(req, limit, Walk(req, limit, NO_PROGRESS, a.trace).value, env, a.ok);
    WalkConcat(req, limit, NO_PROGRESS, a.trace, Closing(req, limit, env, a.ok));
  }
}
