/**
 The server's end of deploy.status: applying an update to the deployments
 table, settling its delivery, restarting the consumer, and what redelivery of
 updates that were already applied can change.
 */
module StatusConsumer {
  import opened Wrappers
  import Contract
  import opened Faults
  import opened Status
  import Dispatcher

  // ---------- Updates on the wire ----------

  datatype Params = Params(deploymentId: string, status: Status, outputUrl: string, errorMessage: string)

  function Name(s: Status): string {
    match s
    case Pending => "pending"
    case Building => "building"
    case Success => "success"
    case Failed => "failed"
    case Canceled => "canceled"
  }

  /** isValidWorkerStatus: the five names, and no other string. */
  function Parse(s: string): (r: Option<Status>)
    ensures r.Some? <==> exists t :: Name(t) == s
    ensures r.Some? ==> Name(r.value) == s
  {
    if s == "pending" then assert Name(Pending) == s; Some(Pending)
    else if s == "building" then assert Name(Building) == s; Some(Building)
    else if s == "success" then assert Name(Success) == s; Some(Success)
    else if s == "failed" then assert Name(Failed) == s; Some(Failed)
    else if s == "canceled" then assert Name(Canceled) == s; Some(Canceled)
    else None
  }

  function Member(o: map<Contract.Key, Contract.Json>, key: Contract.Key): Option<string> {
    Contract.DecodeString(Contract.Field(o, key))
  }

  /** None stands for a poison message: no JSON object of strings, no id, or no known status. */
  function Decode(body: Contract.Body): Option<Params> {
    match body
    case Doc(JObject(o, _)) =>
      var id, status := Member(o, Contract.KDeploymentId), Member(o, Contract.KStatus);
      var url, text := Member(o, Contract.KOutputUrl), Member(o, Contract.KErrorMessage);
      if id.None? || status.None? || url.None? || text.None? || id.value == "" || Parse(status.value).None? then None
      else Some(Params(id.value, Parse(status.value).value, url.value, text.value))
    case _ => None
  }

  /** What the worker writes: the last two members carry omitempty. */
  function Encode(p: Params): Contract.Json {
    Contract.JObject(
      map[Contract.KDeploymentId := Contract.JString(p.deploymentId), Contract.KStatus := Contract.JString(Name(p.status))]
      + (if p.outputUrl == "" then map[] else map[Contract.KOutputUrl := Contract.JString(p.outputUrl)])
      + (if p.errorMessage == "" then map[] else map[Contract.KErrorMessage := Contract.JString(p.errorMessage)]), map[])
  }

  lemma NamesDiffer(s: Status, t: Status)
    ensures Name(s) == Name(t) <==> s == t
  {
    assert |Name(Pending)| == 7 && |Name(Building)| == 8 && |Name(Success)| == 7 && |Name(Failed)| == 6 && |Name(Canceled)| == 8;
    assert Name(Pending)[0] == 'p' && Name(Building)[0] == 'b' && Name(Success)[0] == 's' && Name(Canceled)[0] == 'c';
  }

  /** The server reads back every update the worker can write, unless its id is empty. */
  lemma UpdateRoundTrip(p: Params)
    ensures Decode(Contract.Doc(Encode(p))) == if p.deploymentId == "" then None else Some(p)
  {
    var o := Encode(p).fields;
    assert Contract.Field(o, Contract.KDeploymentId) == Contract.JString(p.deploymentId);
    assert Contract.Field(o, Contract.KStatus) == Contract.JString(Name(p.status));
    assert Contract.DecodeString(Contract.Field(o, Contract.KOutputUrl)) == Some(p.outputUrl);
    assert Contract.DecodeString(Contract.Field(o, Contract.KErrorMessage)) == Some(p.errorMessage);
    var known := Parse(Name(p.status));
    NamesDiffer(known.value, p.status);
  }

  // The word for each status.
  predicate Spelled(s: Status, word: string) {
    match s
    case Pending => word == "pending"
    case Building => word == "building"
    case Success => word == "success"
    case Failed => word == "failed"
    case Canceled => word == "canceled"
  }

  /** An update is read exactly when every field is what the member of its own name says, the id is there and the status a known word. */
  lemma UpdateExactly(o: map<Contract.Key, Contract.Json>, others: map<string, Contract.Json>, p: Params)
    ensures Decode(Contract.Doc(Contract.JObject(o, others))) == Some(p) <==>
              && p.deploymentId != "" && Contract.TextIs(o, Contract.KDeploymentId, p.deploymentId)
              && Contract.KStatus in o && o[Contract.KStatus].JString? && Spelled(p.status, o[Contract.KStatus].s)
              && Contract.TextIs(o, Contract.KOutputUrl, p.outputUrl) && Contract.TextIs(o, Contract.KErrorMessage, p.errorMessage)
  {
    var word := Member(o, Contract.KStatus);
    if word.Some? {
      SpelledExactly(p.status, word.value);
    }
    hide Parse, Name, Spelled;
  }

  lemma SpelledExactly(s: Status, word: string)
    ensures Parse(word) == Some(s) <==> Spelled(s, word)
    ensures Spelled(s, word) ==> word != ""
  {
    NamesDiffer(Pending, s);
    NamesDiffer(Building, s);
    NamesDiffer(Success, s);
    NamesDiffer(Failed, s);
  }

  /** What is written for an update: its id and status, and url and text only where there are any. */
  lemma EncodedUpdate(p: Params)
    ensures exists word :: Spelled(p.status, word) &&
              var must := map[Contract.KDeploymentId := Contract.JString(p.deploymentId), Contract.KStatus := Contract.JString(word)];
              var url := if p.outputUrl == "" then must else must[Contract.KOutputUrl := Contract.JString(p.outputUrl)];
              Encode(p) == Contract.JObject(if p.errorMessage == "" then url else url[Contract.KErrorMessage := Contract.JString(p.errorMessage)], map[])
  {
    assert Spelled(p.status, Name(p.status));
    hide Name, Spelled;
  }

  // ---------- The server's row ----------

  datatype Row = Row(status: Status, outputUrl: string, errorMessage: string, installation: string)

  type Rows = map<string, Row>

  datatype ApplyError = BadParam | NotFound | InvalidTransition | Database {
    predicate Permanent() { !Database? }
  }

  type ApplyResult = Result<(), ApplyError>

  function Or(s: string, otherwise: string): string { if s != "" then s else otherwise }

  predicate Accepts(cur: Status, next: Status) { cur.Terminal() ==> cur == next }

  // Which status may follow which.
  type Rule = (Status, Status) -> bool

  const ACTUAL: Rule := (s, t) => Accepts(s, t)

  function Moved(rule: Rule, r: Row, p: Params): Row {
    if rule(r.status, p.status)
    then r.(status := p.status, outputUrl := Or(p.outputUrl, r.outputUrl), errorMessage := Or(p.errorMessage, r.errorMessage))
    else r
  }

  function Updated(r: Row, p: Params): Row { Moved(ACTUAL, r, p) }

  function Verdict(rows: Rows, p: Params): ApplyResult {
    if p.deploymentId == "" then Err(BadParam)
    else if p.deploymentId !in rows then Err(NotFound)
    else if !Accepts(rows[p.deploymentId].status, p.status) then Err(InvalidTransition)
    else Ok(())
  }

  // An empty id is refused before the database is asked.
  function Reported(rows: Rows, p: Params, db: Db): ApplyResult {
    if db.Fault? && p.deploymentId != "" then Err(Database) else Verdict(rows, p)
  }

  function Applied(rows: Rows, p: Params, db: Db): Rows {
    if db.Took() && Verdict(rows, p).Ok? then rows[p.deploymentId := Updated(rows[p.deploymentId], p)] else rows
  }

  // Whether an update fits the row as it is: a final status stays.
  predicate Fits(rows: Rows, p: Params) {
    && p.deploymentId != "" && p.deploymentId in rows
    && (rows[p.deploymentId].status in {Success, Failed, Canceled} ==> rows[p.deploymentId].status == p.status)
  }

  /** What an update changes: status, and url and text where it has any, of its own row; and nothing when it does not fit. */
  lemma AppliedExactly(rows: Rows, p: Params, db: Db)
    ensures var id, after := p.deploymentId, Applied(rows, p, db);
            if db == Fault(false) || !Fits(rows, p) then after == rows
            else after == rows[id := Row(p.status,
                                         if p.outputUrl == "" then rows[id].outputUrl else p.outputUrl,
                                         if p.errorMessage == "" then rows[id].errorMessage else p.errorMessage,
                                         rows[id].installation)]
  {}

  /** What is reported: only a database error can hide what the row would say. */
  lemma ReportedExactly(rows: Rows, p: Params, db: Db)
    ensures var r := Reported(rows, p, db);
            && (r == Err(BadParam) <==> p.deploymentId == "")
            && (r == Err(Database) <==> p.deploymentId != "" && db.Fault?)
            && (r == Err(NotFound) <==> p.deploymentId != "" && db.Fine? && p.deploymentId !in rows)
            && (r == Err(InvalidTransition) <==> p.deploymentId != "" && db.Fine? && p.deploymentId in rows && !Fits(rows, p))
            && (r.Ok? <==> db.Fine? && Fits(rows, p))
  {}

  class DeploymentRepository {
    var rows: Rows

    constructor (rows: Rows)
      ensures this.rows == rows
    {
      this.rows := rows;
    }

    /** One transaction: either the whole update or nothing, and never over another terminal status. */
    method ApplyStatusUpdate(p: Params, db: Db) returns (r: ApplyResult)
      modifies this
      ensures r == Reported(old(rows), p, db) && rows == Applied(old(rows), p, db)
      ensures rows.Keys == old(rows).Keys
      ensures forall id | id in rows && old(rows)[id].status.Terminal() :: rows[id].status == old(rows)[id].status
      ensures r.Ok? ==> p.deploymentId in rows && rows[p.deploymentId].status == p.status
    {
      if p.deploymentId == "" {
        return Err(BadParam);
      }
      if db == Fault(false) {
        return Err(Database);
      }
      if p.deploymentId !in rows {
        return if db.Fine? then Err(NotFound) else Err(Database);
      }
      var row := rows[p.deploymentId];
      if row.status.Terminal() && row.status != p.status {
        return if db.Fine? then Err(InvalidTransition) else Err(Database);
      }
      row := row.(status := p.status);
      if p.outputUrl != "" {
        row := row.(outputUrl := p.outputUrl);
      }
      if p.errorMessage != "" {
        row := row.(errorMessage := p.errorMessage);
      }
      rows := rows[p.deploymentId := row];
      r := if db.Fine? then Ok(()) else Err(Database);
    }
  }

  // ---------- Settling one delivery ----------

  const MAX_APPLY_ATTEMPTS: nat := 3
  const MILLISECOND: int := 1_000_000
  const APPLY_BACKOFF: seq<int> := [200 * MILLISECOND, 400 * MILLISECOND]

  datatype Move = Apply | Acknowledge | DeadLetter

  /** What is due after some apply results: a success is acked, a permanent error or a third failure dead-lettered. */
  function Next(results: seq<ApplyResult>): Move {
    if results == [] then Apply
    else
      match results[|results| - 1]
      case Ok(_) => Acknowledge
      case Err(e) => if e.Permanent() || |results| >= MAX_APPLY_ATTEMPTS then DeadLetter else Apply
  }

  // Each apply was due when it was made.
  predicate Due(results: seq<ApplyResult>) {
    forall i | 0 <= i < |results| :: Next(results[..i]).Apply?
  }

  /** Due attempts are few, and only a database error is ever followed by another. */
  lemma DueAttempts(results: seq<ApplyResult>)
    requires Due(results)
    ensures |results| <= MAX_APPLY_ATTEMPTS
    ensures forall i | 0 <= i < |results| - 1 :: results[i] == Err(Database)
    ensures results != [] ==> (Next(results).Acknowledge? <==> results[|results| - 1].Ok?)
    ensures results != [] && Next(results).Apply? ==> |results| < MAX_APPLY_ATTEMPTS
  {
    forall i | 0 <= i < |results| - 1 ensures results[i] == Err(Database) && i + 1 < MAX_APPLY_ATTEMPTS {
      assert Next(results[..i + 1]).Apply? && results[..i + 1][i] == results[i];
    }
    if |results| > 1 {
      assert results[|results| - 2] == Err(Database);
    }
  }

  datatype Call = Ack(ok: bool) | Nack(requeue: bool, ok: bool)

  // The database at each attempt, whether shutdown cuts off each wait, and
  // whether the ack or nack reaches the broker.
  datatype Env = Env(db: nat -> Db, shutdown: nat -> bool, settle: bool)

  /** The table after the attempts, each on what the one before left. */
  function AfterApplies(rows: Rows, p: Params, env: Env, n: nat): Rows {
    if n == 0 then rows else Applied(AfterApplies(rows, p, env, n - 1), p, env.db(n - 1))
  }

  // Every attempt reported what the table at its time makes it report.
  ghost predicate Reports(rows: Rows, p: Params, env: Env, results: seq<ApplyResult>) {
    forall i | 0 <= i < |results| :: results[i] == Reported(AfterApplies(rows, p, env, i), p, env.db(i))
  }

  lemma OneMoreAttempt(rows: Rows, p: Params, env: Env, results: seq<ApplyResult>, r: ApplyResult)
    requires Due(results) && Next(results).Apply? && Reports(rows, p, env, results)
    requires r == Reported(AfterApplies(rows, p, env, |results|), p, env.db(|results|))
    ensures Due(results + [r]) && Reports(rows, p, env, results + [r])
  {
    hide Next, Reported, AfterApplies;
    forall i | 0 <= i <= |results| ensures Next((results + [r])[..i]).Apply? {
      assert (results + [r])[..i] == results[..i];
      assert results[..|results|] == results;
    }
  }

  class Consumer {
    const repo: DeploymentRepository

    constructor (repo: DeploymentRepository)
      ensures this.repo == repo
    {
      this.repo := repo;
    }

    /** A delivery is settled exactly once, unless shutdown cuts off a wait before the third attempt. */
    method HandleStatusMessage(body: Contract.Body, env: Env)
      returns (results: seq<ApplyResult>, waits: seq<int>, calls: seq<Call>)
      modifies repo
      ensures Due(results) && |results| <= MAX_APPLY_ATTEMPTS
      ensures Decode(body).None? ==> results == [] && calls == [Nack(false, env.settle)] && repo.rows == old(repo.rows)
      ensures Decode(body).Some? ==>
                && results != []
                && repo.rows == AfterApplies(old(repo.rows), Decode(body).value, env, |results|)
                && Reports(old(repo.rows), Decode(body).value, env, results)
                && (match Next(results)
                    case Acknowledge => calls == [Ack(env.settle)]
                    case DeadLetter => calls == [Nack(false, env.settle)]
                    case Apply => calls == [] && env.shutdown(|results| - 1))
                && |waits| == (if calls == [] then |results| else |results| - 1)
                && waits <= [200_000_000, 400_000_000]
      ensures forall i | 0 <= i < |results| - 1 :: results[i] == Err(Database)
      ensures calls == [Ack(env.settle)] <==> results != [] && results[|results| - 1].Ok?
      ensures calls == [] ==> 0 < |results| < MAX_APPLY_ATTEMPTS
      ensures calls != [] ==> |calls| == 1 && (calls[0].Nack? ==> !calls[0].requeue)
      ensures calls == [Ack(env.settle)] ==>
                Decode(body).value.deploymentId in repo.rows
                && repo.rows[Decode(body).value.deploymentId].status == Decode(body).value.status
    {
      results, waits := [], [];
      assert Due(results);
      if Decode(body).None? {
        return results, waits, [Nack(false, env.settle)];
      }
      assert APPLY_BACKOFF == [200_000_000, 400_000_000];
      hide Decode, Reported, Applied, Verdict, Due, Reports;
      var p := Decode(body).value;
      ghost var start := repo.rows;
      var attempt := 1;
      while true
        invariant 1 <= attempt <= MAX_APPLY_ATTEMPTS && |results| == |waits| == attempt - 1
        invariant Due(results) && Next(results).Apply?
        invariant waits == APPLY_BACKOFF[..|waits|]
        invariant repo.rows == AfterApplies(start, p, env, |results|)
        invariant Reports(start, p, env, results)
        decreases MAX_APPLY_ATTEMPTS - attempt
      {
        var r := repo.ApplyStatusUpdate(p, env.db(attempt - 1));
        OneMoreAttempt(start, p, env, results, r);
        results := results + [r];
        if r.Ok? || r.error.Permanent() || attempt == MAX_APPLY_ATTEMPTS {
          break;
        }
        waits := waits + [APPLY_BACKOFF[attempt - 1]];
        if env.shutdown(attempt - 1) {
          DueAttempts(results);
          return results, waits, [];
        }
        attempt := attempt + 1;
      }
      DueAttempts(results);
      calls := [if results[|results| - 1].Ok? then Ack(env.settle) else Nack(false, env.settle)];
    }

    /**
     The restart loop: the wait after session i is min(2^j s, 30 s), where j
     counts the sessions since the last one that ran for a minute.
     */
    method RunStatusConsumerLoop(sessions: seq<Session>) returns (waits: seq<int64>)
      ensures |waits| <= |sessions|
      ensures forall i | 0 <= i < |waits| ::
                waits[i] as int == Dispatcher.Delay(1_000_000_000, 30_000_000_000, SinceLongSession(sessions, i))
      ensures |waits| < |sessions| ==>
                sessions[|waits|].shutdown.BeforeSession? || sessions[|waits|].shutdown.DuringSession?
                || (waits != [] && sessions[|waits| - 1].shutdown.DuringWait?)
      ensures forall i | 0 <= i < |waits| - 1 :: sessions[i].shutdown.Never?
    {
      hide Dispatcher.Delay;
      waits := [];
      var backoff: int64 := SECOND as int64;
      DelayDoubles(0);
      for i := 0 to |sessions|
        invariant |waits| == i
        invariant forall k | 0 <= k < i :: sessions[k].shutdown.Never?
        invariant forall k | 0 <= k < i ::
                    waits[k] as int == Dispatcher.Delay(SECOND, RESTART_MAX, SinceLongSession(sessions, k))
        invariant backoff as int == Dispatcher.Delay(SECOND, RESTART_MAX, if i == 0 then 0 else SinceLongSession(sessions, i - 1) + 1)
      {
        var s := sessions[i];
        if s.shutdown.BeforeSession? || s.shutdown.DuringSession? {
          return;
        }
        if s.duration >= MINUTE {
          backoff := SECOND as int64;
        }
        waits := waits + [backoff];
        if s.shutdown.DuringWait? {
          return;
        }
        DelayDoubles(SinceLongSession(sessions, i));
        backoff := backoff * 2;
        if backoff as int > RESTART_MAX {
          backoff := RESTART_MAX as int64;
        }
      }
    }
  }

  const SECOND: int := 1_000_000_000
  const MINUTE: int := 60 * SECOND
  const RESTART_MAX: int := 30 * SECOND

  datatype Shutdown = Never | BeforeSession | DuringSession | DuringWait

  datatype Session = Session(duration: nat, shutdown: Shutdown)

  // The number of sessions after the last long one among the first i + 1.
  function SinceLongSession(sessions: seq<Session>, i: nat): nat
    requires i < |sessions|
  {
    if sessions[i].duration >= MINUTE || i == 0 then 0 else SinceLongSession(sessions, i - 1) + 1
  }

  /** It is counted back to the last session that ran for at least 60 seconds, or to the first one. */
  lemma {:induction false} SinceLongExactly(sessions: seq<Session>, i: nat)
    requires i < |sessions|
    ensures var first := i - SinceLongSession(sessions, i);
            && 0 <= first <= i && (first == 0 || sessions[first].duration >= 60_000_000_000)
            && forall k | first < k <= i :: sessions[k].duration < 60_000_000_000
  {
    if sessions[i].duration < MINUTE && i > 0 {
      SinceLongExactly(sessions, i - 1);
    }
  }

  lemma DelayDoubles(j: nat)
    ensures var d := Dispatcher.Delay(SECOND, RESTART_MAX, j);
            && (j == 0 ==> d == SECOND) && 0 < d <= RESTART_MAX
            && Dispatcher.Delay(SECOND, RESTART_MAX, j + 1) == if 2 * d > RESTART_MAX then RESTART_MAX else 2 * d
  {}
}
