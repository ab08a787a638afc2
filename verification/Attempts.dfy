/**
 What one delivery does, call by call: which answers make its attempt succeed,
 what it has done then, and what it has done when something fails.
 */
module Attempts {
  import opened Wrappers
  import opened Contract
  import opened Faults
  import opened Status
  import opened Worker

  // ---------- What has to work ----------

  predicate Prepared(req: BuildRequest, env: Env) {
    && env.granted && (req.retryCount == 0 ==> env.insert.Fine?)
    && env.building.Fine? && env.announceBuilding.Returned() && env.tagRead
  }

  // The image is built, if need be as that of a server.
  predicate Imaged(env: Env) {
    && env.checkout && env.appDir && env.prepared.Some?
    && (env.image.Built? || (env.image.Mismatch? && env.fallback))
  }

  // A static build that produced static output: the only one that is uploaded.
  predicate Uploads(env: Env) { env.prepared == Some(true) && env.image.Built? }

  predicate Finalized(env: Env) {
    && (Uploads(env) ==> env.upload.Some? && env.url.Fine?)
    && env.finished.Fine? && env.announceSuccess.Returned()
  }

  /** An attempt succeeds exactly when everything it needs works. */
  lemma SucceedsExactly(req: BuildRequest, env: Env)
    ensures Attempt(req, env).ok <==> Prepared(req, env) && Imaged(env) && Finalized(env)
  {}

  // ---------- What has been done ----------

  // All calls before the checkout, when they work.
  function Opening(req: BuildRequest, env: Env): seq<Effect> {
    [FetchCredential(true)] + (if req.retryCount == 0 then [Insert(Fine)] else [])
    + [MarkBuilding(Fine), Announce(Update(req.deploymentId, Building, "", NoReason), env.announceBuilding), ReadTag(true)]
  }

  // The url of the finished deployment: that of the upload, or none.
  function FinalUrl(env: Env): string { if Uploads(env) && env.upload.Some? then env.upload.value else "" }

  function Stored(env: Env): seq<Effect> { if Uploads(env) then [SetOutputUrl(FinalUrl(env), Fine)] else [] }

  /**
   A successful attempt has stored the uploaded url, finished the row with it
   and announced it; a dynamic build, also one that fell back to it, has stored
   none and announced none.
   */
  lemma SuccessExactly(req: BuildRequest, env: Env)
    requires Attempt(req, env).ok
    ensures Uploads(env) ==> env.upload == Some(FinalUrl(env))
    ensures Attempt(req, env).trace ==
              Opening(req, env) + Stored(env)
              + [MarkFinished(FinalUrl(env), Fine), Announce(Update(req.deploymentId, Success, FinalUrl(env), NoReason), env.announceSuccess)]
  {
    SucceedsExactly(req, env);
    OpeningExactly(req, env);
    hide Opening, Prepare;
  }

  lemma OpeningExactly(req: BuildRequest, env: Env)
    requires Prepared(req, env)
    ensures Prepare(req, env).ok && [FetchCredential(true)] + Prepare(req, env).trace + [ReadTag(true)] == Opening(req, env)
  {}

  // Why the image was not built.
  function Obstacle(env: Env): Reason
    requires !Imaged(env)
  {
    if !env.checkout then CheckoutFailed
    else if !env.appDir then AppDirUnresolved
    else if env.prepared.None? then PrepareFailed
    else if env.image.Broken? then BuildFailed
    else ServerSideRendering
  }

  /** Without an image the attempt ends with the reason in the row, and announces nothing more. */
  lemma NoImageExactly(req: BuildRequest, env: Env)
    requires Prepared(req, env) && !Imaged(env)
    ensures Attempt(req, env).trace == Opening(req, env) + [MarkFailed(Obstacle(env), env.failed)]
  {
    OpeningExactly(req, env);
    hide Opening, Prepare;
  }

  /** With an image it ends at the first of upload, url, finish and announcement that fails, and records no reason. */
  lemma NotFinalizedExactly(req: BuildRequest, env: Env)
    requires Prepared(req, env) && Imaged(env) && !Finalized(env)
    ensures Attempt(req, env).trace == Opening(req, env) +
              if Uploads(env) && env.upload.None? then []
              else if Uploads(env) && env.url.Fault? then [SetOutputUrl(FinalUrl(env), env.url)]
              else if env.finished.Fault? then Stored(env) + [MarkFinished(FinalUrl(env), env.finished)]
              else Stored(env) + [MarkFinished(FinalUrl(env), Fine),
                                  Announce(Update(req.deploymentId, Success, FinalUrl(env), NoReason), env.announceSuccess)]
  {
    OpeningExactly(req, env);
    hide Opening, Prepare;
  }

  /** And before the checkout it ends at the first call that fails; only an unreadable tag is recorded. */
  lemma NotPreparedExactly(req: BuildRequest, env: Env)
    requires !Prepared(req, env)
    ensures var insert := if req.retryCount == 0 then [Insert(env.insert)] else [];
            var building := Announce(Update(req.deploymentId, Building, "", NoReason), env.announceBuilding);
            Attempt(req, env).trace ==
              if !env.granted then [FetchCredential(false)]
              else if req.retryCount == 0 && env.insert.Fault? then [FetchCredential(true)] + insert
              else if env.building.Fault? then [FetchCredential(true)] + insert + [MarkBuilding(env.building)]
              else if !env.announceBuilding.Returned() then [FetchCredential(true)] + insert + [MarkBuilding(Fine), building]
              else [FetchCredential(true)] + insert + [MarkBuilding(Fine), building, ReadTag(false), MarkFailed(TagUnreadable, env.failed)]
  {
    hide Build;
  }

  // ---------- How the delivery is closed ----------

  /** Behind the attempt: done and acked, or given up, or passed on. */
  lemma ClosedExactly(req: BuildRequest, limit: int, env: Env)
    ensures var a := Attempt(req, env);
            var next := req.(retryCount := Increment(req.retryCount));
            Delivery(req, limit, env) == a.trace +
              if a.ok then [Completed, Ack(env.settle)]
              else if next.retryCount as int >= limit then
                [GaveUp, MarkCanceled(env.canceled),
                 Announce(Update(req.deploymentId, Canceled, "", RetriesExhausted), env.announceCanceled), Discard(env.settle)]
              else if !Valid(next) || env.republish.Refused? then
                [Republish(next, if Valid(next) then env.republish else Refused(false)), Requeue(env.settle)]
              else [Republish(next, env.republish), Ack(env.settle)]
  {
    hide Attempt, Valid;
  }

  // ---------- The row ----------

  // The calls of a successful attempt behind the insert.
  function Marks(req: BuildRequest, env: Env): seq<Effect> {
    var id := req.deploymentId;
    [MarkBuilding(Fine), Announce(Update(id, Building, "", NoReason), env.announceBuilding), ReadTag(true)] + Stored(env)
    + [MarkFinished(FinalUrl(env), Fine), Announce(Update(id, Success, FinalUrl(env), NoReason), env.announceSuccess)]
  }

  lemma MarksSay(req: BuildRequest, env: Env)
    ensures LastWritten(Marks(req, env), Mark) == Some(Success) && LastWritten(Marks(req, env), WrittenUrl) == Some(FinalUrl(env))
    ensures LastWritten(Marks(req, env), WrittenReason) == Some(NoReason) && LastWritten(Marks(req, env), WrittenJob) == None
  {
    var marks, n := Marks(req, env), |Marks(req, env)|;
    assert marks[n - 1].Announce? && marks[..n - 1][n - 2] == MarkFinished(FinalUrl(env), Fine);
    LastWrittenIsLast(marks, WrittenJob);
    assert forall i | 0 <= i < n :: !marks[i].Insert?;
  }

  lemma OpenedRows(rows: Rows, req: BuildRequest)
    ensures var after := RowsAfter(rows, req, [FetchCredential(true)] + if req.retryCount == 0 then [Insert(Fine)] else []);
            after == if req.retryCount == 0 then Inserted(rows, req) else rows
  {
    var fetch: seq<Effect> := [FetchCredential(true)];
    assert fetch[..0] == [];
    assert RowsAfter(rows, req, fetch) == rows;
    if req.retryCount == 0 {
      assert (fetch + [Insert(Fine)])[..1] == fetch;
    } else {
      assert fetch + [] == fetch;
    }
  }

  /** The row of a deployment after a successful attempt: finished, with the url, and without an error text. */
  lemma FinishedRow(rows: Rows, req: BuildRequest, env: Env)
    requires Attempt(req, env).ok && (req.deploymentId in rows || req.retryCount == 0)
    ensures var id, after := req.deploymentId, RowsAfter(rows, req, Attempt(req, env).trace);
            && id in after && after[id].status.Success? && after[id].outputUrl == FinalUrl(env) && after[id].reason.NoReason?
            && SameJob(after[id], if req.retryCount == 0 then Job(req) else rows[id])
  {
    var opening := [FetchCredential(true)] + if req.retryCount == 0 then [Insert(Fine)] else [];
    SuccessExactly(req, env);
    assert Attempt(req, env).trace == opening + Marks(req, env);
    OpenedRows(rows, req);
    MarksSay(req, env);
    hide Attempt, RowsAfter, LastWritten, Marks, FinalUrl;
    RowsAfterConcat(rows, req, opening, Marks(req, env));
    LastWriteWins(RowsAfter(rows, req, opening), req, Marks(req, env));
  }
}
