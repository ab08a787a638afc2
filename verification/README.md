# Verified model of the deploy pipeline

This project models how an accepted build travels through the system and
proves what that journey guarantees, whatever fails on the way.

- A build is recorded in the server's outbox. A dispatcher claims rows, publishes
  them to `deploy.jobs` with broker confirms and records the result.
- A worker receives the message, fetches a clone credential from the server,
  writes its own deployments row, builds, and publishes status updates. A
  failed attempt is published again with a higher retry count until a limit.
- The server's status consumer applies each update in a transaction and only
  then acks it.
- On the side, the worker finds the application directory in the checkout,
  detects its framework and rewrites a Dockerfile template.

## How it is modelled

Every call to the outside (database, broker, build) has an outcome that is
chosen freely when the call is made, including "reported an error but took
effect" (`Faults`). A stretch of code is the list of calls it makes, so a crash
is any prefix of it; a process may also lose its broker session and go on while
the broker delivers its message again.
The classes (`Dispatcher.Repository`, `Dispatcher.OutboxDispatcher`,
`WorkerLoop.*`, `StatusConsumer.*`, `Discovery.AppDiscovery`) hold the fields
that the Go objects change, and their methods are proved to make exactly the
calls of the specification, in that order, and to leave exactly the state those
calls lead to. The main results are then lemmas about the specification.

| file | part of the system |
|---|---|
| `Contract.dfy` | the V1 message: JSON, validation, envelope, the JSON Schema |
| `Outbox.dfy`, `Dispatcher.dfy` | outbox rows and the dispatcher |
| `Worker.dfy`, `Attempts.dfy`, `WorkerLoop.dfy`, `JobRuns.dfy` | one delivery, its calls for every answer, the running worker, one job over all its attempts |
| `Hearing.dfy`, `Completion.dfy` | what the server hears of a job, and when it can still complete |
| `StatusConsumer.dfy`, `Redelivery.dfy`, `Credentials.dfy` | the server's end: applying updates, redelivery, the credential gate |
| `Protocol.dfy` | the order in which one delivery may make its calls |
| `Pipeline.dfy` | everything together as one state machine: any number of dispatchers, workers and consumers, any interleaving, crashes before any call |
| `PipelineSafety.dfy`, `Frames.dfy`, `NoLoss.dfy`, `LostRetry.dfy`, `Guarantees.dfy`, `Stranded.dfy` | what every run of it keeps, which builds can be lost, and which can still be sent |
| `Deliveries.dfy`, `Announcements.dfy` | messages at the broker until they may be acked, and final words on their way from the worker to the server |
| `Finishing.dfy` | which deployments can still be built, from any state of it |
| `Paths.dfy`, `Detect.dfy`, `Discovery.dfy` | lexical paths, framework detection, the directory walk |
| `Template.dfy`, `Corepack.dfy`, `Rendering.dfy`, `Dockerfiles.dfy` | the package-manager rewrite: corepack before every install and how often, seven overlapping rewrites acting as one translation, and two of the repository's templates |

## What the code does not do

Where a natural claim is false of the code, the exact condition is proved.

- **A retry can vanish.** The worker publishes retries without confirms and acks
  the old message when the publish returns nil. `LostRetry.NoLossExactly`: no
  accepted build is lost in any run if and only if such a publish is always
  taken by the broker, or the limit allows no retry.
- **A row can be stranded.** Recovering an abandoned claim keeps the attempt
  counter. A recorded build can still be sent if and only if an attempt is left,
  or its row is publishing and some dispatcher has the event and either has not
  published it yet or was acked and has still to record that
  (`Stranded.CanBeSentExactly`); a pending row stays pending for ever if and only
  if its attempts are used up (`Stranded.StrandsExactly`), and runs reach such
  rows (`Stranded.BuildsCanStrand`).
- **A lost first attempt is not recovered.** When the attempt with retry count 0
  fails before its insert takes effect, the job can still complete if and only if
  the message with count 0 comes back, because its ack is lost or the retry's
  publish reports an error (`Completion.LostFirstAttempt`). In general the loop
  can still complete a deployment if and only if one of its messages has count 0,
  or finds the row, and no message before it blocks the queue
  (`Completion.CompletionExactly`). For the pipeline as a whole: a deployment can
  still be completed if and only if it has been, or a worker's attempt can still
  succeed, or the server would grant a credential and such a message is queued,
  in a worker's hands, about to be retried, or still to be published
  (`Finishing.CanFinishExactly`).
- **The retry counter wraps.** A job at the largest 64-bit count is redelivered
  for ever, because its retry is not a valid message
  (`JobRuns.EndsUnlessCounterWraps`); if it can only fail, nothing behind it is
  reached any more.
- **A final word need not be the last.** Without crashes and lost acks, the
  updates of a job are building^k and at most one final word if and only if no
  success publish and no retry publish can end in an error after the broker took
  the message; the latter does not matter for a job that cannot be retried
  (`Hearing.ShapeExactly`, with the two failing runs as
  `Hearing.DoubtfulSuccessBreaksShape` and `Hearing.DoubtfulRetryBreaksShape`).
- **Same-status duplicates are not always no-ops.** A redelivered update
  overwrites the output url and error text, and the rule in force lets `building`
  go back to `pending`. `Redelivery.StatusConvergesExactly` and
  `Redelivery.RowConvergesExactly` say when redelivery is harmless; the worker
  never says `pending`, so its updates always converge in status
  (`Redelivery.WorkerUpdatesConverge`, `Guarantees.ReappliedIsHarmless`).
- **The validator is not the schema's mirror.** It accepts documents with unknown
  members, foreign clone urls, missing counters and null elements in `args`; and
  it refuses integers written as `1.0` or wider than 64 bits (`Contract.SchemaAgreement`;
  documents of both kinds in `Contract.ForeignUrlAccepted` and
  `Contract.FractionRefused`).
- **Two manifest tests disagree** on two shapes of package.json
  (`Detect.ManifestMatchesDetection`; a project of each in
  `Detect.ShapesThatDisagree`).
- **Server frameworks slip through.** The check for them runs only beside a
  configuration file (`Detect.DisguiseUnnoticedExactly`; a vike project that is
  taken for a static vite one in `Detect.VikePassesForVite`).
- The repository's READMEs say that the worker never publishes `success`. The
  code does (worker-server/internal/deployments/deployments.go:544 and 558), and
  the model follows the code.

The server's SQL statements are read from
server/internal/deployments/repository/pgsql/pgsql_deployment.go; broker queues
are assumed durable, to redeliver what is not settled, and to dead-letter what is
nacked without requeue.

## Model

| member | source | states |
|---|---|---|
| Contract.RoundTrip | worker-server/internal/deployments/contract/contract.go:149-156 | decoding undoes encoding for every request, with the omitted `requested_ref` and nil, empty and filled `args` |
| Contract.UnmarshalExactly | worker-server/internal/deployments/contract/contract.go:40-67 | a document decodes to a request exactly when every field, also those of the configuration, is what the member of its own name says; absent and null members leave the zero value |
| Contract.EncodedExactly | worker-server/internal/deployments/contract/contract.go:40-67 | every field is written under its own name, `requested_ref` only when it is not empty, and nothing else |
| Contract.PublishedIsReceived | worker-server/internal/deployments/contract/contract.go:111-167 | a request can be published if and only if it is valid, and what is published passes `DecodeV1` and `ValidateMetadata` and decodes to the same request |
| Contract.AcceptedAgreesWithPublished | worker-server/internal/deployments/contract/contract.go:122-145 | the consumer accepts a body exactly when it decodes and its envelope contradicts the producer's envelope for that request nowhere |
| Contract.RetryStaysPublishable | worker-server/internal/worker/worker.go:106-139 | a retry keeps the accepted body but for a count one higher and stays publishable, except exactly at the count where the increment wraps |
| Contract.ValidFieldByField | server/internal/deployments/contract/contract.go:70-106 | the switch rejects exactly the requests with some unacceptable field and blames one of those |
| Contract.FirstFailureReported | worker-server/internal/deployments/contract/contract.go:71-107 | the error reported is that of the first demand, in the order of the switch, that is not met |
| Contract.MetadataExactly | worker-server/internal/deployments/contract/contract.go:126-146 | which part of the envelope is refused, and that a nil header says nothing |
| Contract.SchemaAgreement | schemas/deploy-jobs-v1.schema.json:1-116 | for every document: accepted by the Go code and free of the listed liberties is the same as schema-valid with plain 64-bit integer literals |
| Contract.ForeignUrlAccepted | worker-server/internal/deployments/contract/contract.go:66-85 | every valid request with a clone url elsewhere is accepted although the schema refuses it |
| Contract.FractionRefused | schemas/deploy-jobs-v1.schema.json:1-116 | every schema-valid document stays so with its count written as 1.0, and is refused by the decoder |
| Outbox.ClaimSpendsBudget | server/internal/deployments/repository/pgsql/pgsql_deployment.go:506-617 | a claim of n rows uses up exactly n of the attempts that the table can still grant |
| Outbox.ClaimedFor | server/internal/deployments/repository/pgsql/pgsql_deployment.go:506-617 | after a claim a row can be claimed again exactly when its lease of 30 seconds is over and one of five attempts is left |
| Outbox.FailedUntil | server/internal/deployments/repository/pgsql/pgsql_deployment.go:660-698 | a failed row can be claimed exactly from the time that was set for it, a dead-lettered one never |
| Outbox.RecoveredAt | server/internal/deployments/repository/pgsql/pgsql_deployment.go:703-737 | a recovered row can be claimed at once if an attempt is left; a row whose lease runs is not recovered |
| Outbox.ClaimedIsNotStuck | server/internal/deployments/repository/pgsql/pgsql_deployment.go:703-737 | a claim is recovered no earlier than its lease allows |
| Outbox.FreshFrom | server/internal/deployments/repository/pgsql/pgsql_deployment.go:506-617 | a new row can be claimed from the time that it is available on |
| Outbox.SentFor | server/internal/deployments/repository/pgsql/pgsql_deployment.go:862-890 | a sent row is kept for the retention after it was sent, and is never claimed or recovered |
| Dispatcher.Repository.ClaimOutboxBatch | server/internal/deployments/repository/pgsql/pgsql_deployment.go:506-617 | claims distinct claimable rows that nobody has locked, the earliest ones, as many as fit the limit, and counts an attempt on each |
| Outbox.RowsStayConsistent | server/internal/deployments/repository/pgsql/pgsql_deployment.go:619-737 | after any statements in any order a row keeps its event, has at most five attempts, is sent exactly with a time, failed only with attempts left and dead-lettered only without |
| Outbox.DoneRowsStay | server/internal/deployments/repository/pgsql/pgsql_deployment.go:619-698 | whatever statements follow, a sent or dead-lettered row stays as it is, but for the deletion of sent ones |
| Outbox.OnlySentRowsGo | server/internal/deployments/repository/pgsql/pgsql_deployment.go:862-890 | a row that is gone after any statements was sent before one of them |
| Dispatcher.OutboxDispatcher.WithDefaults | server/internal/deployments/dispatcher/outbox_dispatcher.go:76-101 | every setting is usable afterwards, usable ones are kept, the cap is never below the base |
| Dispatcher.OutboxDispatcher.Backoff | server/internal/deployments/dispatcher/outbox_dispatcher.go:365-390 | the doubling loop in 64-bit arithmetic computes min(base * 2^n, max) for every n without overflow |
| Dispatcher.DelayMonotone | server/internal/deployments/dispatcher/outbox_dispatcher.go:363-390 | more attempts never wait less, and never more than the cap |
| Dispatcher.DelaySteps | server/internal/deployments/dispatcher/outbox_dispatcher.go:363-390 | the delay starts at the base and doubles with every attempt up to the cap |
| Dispatcher.MessageExactly | server/internal/deployments/dispatcher/outbox_dispatcher.go:268-289 | which rows stand for a message and which are poison: by event type, version, and a payload that decodes and validates |
| Dispatcher.RecordedIsPublished | server/internal/deployments/repository/pgsql/pgsql_deployment.go:224-245 | a recorded request is published exactly when it is valid, as the very envelope the contract makes for it |
| Dispatcher.EventOutcome | server/internal/deployments/dispatcher/outbox_dispatcher.go:252-332 | a row ends sent only on a recorded ack, failed or dead-lettered only on a recorded refusal or poison, and is untouched after an unknown confirm |
| Dispatcher.OutboxDispatcher.DispatchEvent | server/internal/deployments/dispatcher/outbox_dispatcher.go:261-361 | makes exactly the specified calls for each answer of broker and database, and succeeds only if the row was then marked sent |
| Dispatcher.OutboxDispatcher.DispatchAll | server/internal/deployments/dispatcher/outbox_dispatcher.go:230-243 | dispatches the claimed events in order, each once, stopping early only on cancellation |
| Dispatcher.OutboxDispatcher.Claim | server/internal/deployments/dispatcher/outbox_dispatcher.go:214-224 | logs the claimed rows as they are after the statement and charges one attempt for each |
| Dispatcher.OutboxDispatcher.DispatchBatch | server/internal/deployments/dispatcher/outbox_dispatcher.go:204-250 | terminates even on poison rows that are claimable at once; dispatches every claimed event exactly once in order unless cancelled; stops otherwise only on a claim error or a short or empty claim |
| Dispatcher.ClaimsAreAttempts | server/internal/deployments/dispatcher/outbox_dispatcher.go:208-250 | over any log of claims and results a row's counter rises by its number of claims, and no claim goes beyond the limit |
| Dispatcher.OutboxDispatcher.Reconcile | server/internal/deployments/dispatcher/outbox_dispatcher.go:392-422 | resets stuck rows, then deletes old sent ones; a failure of either does not stop the other |
| Worker.TurnQueues | worker-server/internal/worker/worker.go:67-147 | where a turn of the loop leaves queue, dead letters and finished jobs for each outcome, and the rows and updates it leads to |
| Protocol.DeliveryIsDisciplined | worker-server/internal/worker/worker.go:95-147 | for all outcomes: no processing without a credential, no finish before the row was seen, no success update before the finish, no cancel before the limit, no ack before the job is finished or passed on |
| Attempts.SucceedsExactly | worker-server/internal/deployments/deployments.go:562-618 | an attempt succeeds exactly when every call it needs works; an upload is needed exactly for a static build that produced static output |
| Attempts.SuccessExactly | worker-server/internal/deployments/deployments.go:524-560 | all calls of a successful attempt: a static build stores the uploaded url, finishes with it and announces it; a dynamic one, or one that fell back to it, stores none and announces none |
| Attempts.NoImageExactly | worker-server/internal/deployments/deployments.go:576-612 | without an image the attempt ends with its reason recorded, the first of the five that applies |
| Attempts.NotFinalizedExactly | worker-server/internal/deployments/deployments.go:524-560 | with an image it ends at the first of upload, url, finish and announcement that fails, and records nothing |
| Attempts.NotPreparedExactly | worker-server/internal/deployments/deployments.go:425-443 | before the checkout it ends at the first call that fails; only an unreadable tag is recorded |
| Attempts.ClosedExactly | worker-server/internal/worker/worker.go:102-147 | what follows the attempt: completed and acked; at the limit canceled, announced and dead-lettered; else republished, and acked or requeued |
| Attempts.FinishedRow | worker-server/internal/deployments/deployments.go:524-560 | after a successful attempt the row is finished, with the final url and without error text |
| Worker.LastWriteWins | worker-server/internal/deployments/repository/pgsql/pgsql_deployment.go:20-82 | over any calls and outcomes an existing row has the status, the url and the error text of the last call that wrote one and took effect; final statuses do not fix it, only an insert renews the rest, and no other row changes |
| Worker.InsertedExactly | worker-server/internal/deployments/repository/pgsql/pgsql_deployment.go:20-48 | an insert makes the job's row, and keeps only url and error text of an earlier one |
| Worker.LastWrittenIsLast | worker-server/internal/deployments/repository/pgsql/pgsql_deployment.go:20-82 | the value meant there is that of a call behind which no other took effect on it, and there is none exactly when no call did |
| WorkerLoop.DeploymentRepository.ReadImageTag | worker-server/internal/deployments/repository/pgsql/pgsql_deployment.go:50-58 | finds the tag exactly if the row exists and the read works |
| WorkerLoop.Queue.PublishBuildRequest | worker-server/internal/queue/queue.go:148-154 | an invalid request never reaches the broker; otherwise the message is queued exactly if the publish arrived |
| Worker.PerformedRowsAndUpdates | worker-server/internal/queue/queue.go:157-176 | what reaches `deploy.status` over any calls is exactly the updates whose publish arrived, in their order, whether or not an error was reported |
| WorkerLoop.WorkerUsecase.PrepareAndMarkBuilding | worker-server/internal/deployments/deployments.go:425-443 | insert on the first attempt only, then building, then the update, each only after the one before worked |
| WorkerLoop.WorkerUsecase.MarkAttemptFailed | worker-server/internal/deployments/deployments.go:415-423 | records the failure locally, announces nothing, always fails |
| WorkerLoop.WorkerUsecase.MarkFinishedAndPublish | worker-server/internal/deployments/deployments.go:550-559 | the row is finished before the success update is published |
| WorkerLoop.WorkerUsecase.UploadAndFinalizeStatic | worker-server/internal/deployments/deployments.go:524-545 | upload, url, finish, update, stopping at the first failure |
| WorkerLoop.WorkerUsecase.BuildAndFinalize | worker-server/internal/deployments/deployments.go:576-617 | each failure from the checkout on ends the attempt with its own reason; a build that needs a server is finished as a dynamic one |
| WorkerLoop.WorkerUsecase.ProcessDeployment | worker-server/internal/deployments/deployments.go:562-618 | makes exactly the specified calls in order and leaves the state they lead to |
| WorkerLoop.WorkerUsecase.GiveUp | worker-server/internal/worker/worker.go:110-126 | cancels the row, announces it and dead-letters the message whatever fails |
| WorkerLoop.WorkerUsecase.RetryLater | worker-server/internal/worker/worker.go:127-139 | publishes the retry, then acks; a refused publish requeues the old message |
| WorkerLoop.WorkerUsecase.HandleDelivery | worker-server/internal/worker/worker.go:67-147 | one iteration of the loop is one turn of the specification |
| WorkerLoop.WorkerUsecase.StartWorker | worker-server/internal/worker/worker.go:41-152 | with finitely many faults the loop empties its queue (measure: faults left, then attempts left); without faults it takes at most the sum of max(1, limit - r) turns and loses or doubles no job |
| WorkerLoop.TurnSpendsAttempt | worker-server/internal/worker/worker.go:102-139 | a turn without faults uses up at least one of the attempts the queue stands for |
| JobRuns.QueueRunsJob | worker-server/internal/worker/worker.go:67-147 | on a queue with one job the loop does exactly the run of that job: same row, updates, remaining message and end |
| Hearing.TurnsSpeak | worker-server/internal/worker/worker.go:67-147 | in the message loop, whatever else fails, the updates of a job are building^k with k at most the number of turns and then at most one final word, which ends the job |
| Hearing.DoubtfulSuccessBreaksShape | worker-server/internal/deployments/deployments.go:524-559 | the run in which a success arrives, its publish reports an error, and the worker goes on |
| Hearing.DoubtfulRetryBreaksShape | worker-server/internal/worker/worker.go:127-135 | the run in which a retry arrives, its publish reports an error, and the job is built twice |
| Hearing.ShapeExactly | worker-server/internal/worker/worker.go:67-147 | for every job and limit that shape holds in every run without crashes and lost acks exactly when neither a success publish nor, for a job that can be retried, a retry publish can fail after the broker took it |
| JobRuns.BoundedAttempts | worker-server/internal/worker/worker.go:102-139 | without faults a job with count r is attempted at most max(1, limit - r) times and then is finished or given up |
| JobRuns.EndsUnlessCounterWraps | worker-server/internal/worker/worker.go:106-139 | every fault-free run of a job ends exactly when its count is not the largest integer |
| Completion.SuccessIsPossible | worker-server/internal/deployments/deployments.go:425-443 | an attempt can succeed under some environment exactly when the row exists or the attempt may insert it |
| Completion.OnlyInsertCreates | worker-server/internal/deployments/repository/pgsql/pgsql_deployment.go:20-82 | of all calls only an insert that took effect brings a row into being |
| Completion.HopelessForever | worker-server/internal/deployments/deployments.go:425-443 | in the message loop, with any queue and duplicates: while no message of the deployment that has count 0 or finds its row can be reached, no delivery ever completes it, however the environment behaves |
| Completion.LostFirstAttempt | worker-server/internal/worker/worker.go:95-139 | after a first attempt that failed before its insert the job can still complete exactly when the ack did not arrive or the retry publish reported an error |
| Completion.CompletionExactly | worker-server/internal/worker/worker.go:67-147 | for every queue: some course of events completes the deployment exactly when one of its messages has count 0, or finds its row, and no message before it is one at the largest count that can only fail |
| JobRuns.RunConserves | worker-server/internal/worker/worker.go:67-147 | in a fault-free run each job occurs in queue, dead letters and finished work together as often as at the start |
| StatusConsumer.Parse | server/internal/deployments/usecase/deployment_ucase.go:342-353 | accepts exactly the five status names |
| StatusConsumer.UpdateRoundTrip | server/internal/deployments/usecase/deployment_ucase.go:258-271 | every update the worker can write is read back as itself, unless its id is empty |
| StatusConsumer.UpdateExactly | server/internal/deployments/usecase/deployment_ucase.go:258-275 | an update is read exactly when each field is what the member of its own name says, with an id and one of the five status words |
| StatusConsumer.EncodedUpdate | worker-server/internal/queue/queue.go:157-176 | id and status are written under their names, url and text only when there are any |
| StatusConsumer.AppliedExactly | server/internal/deployments/repository/pgsql/pgsql_deployment.go:786-848 | an update changes status, and url and text where it has any, of its own row, unless another final status is there |
| StatusConsumer.ReportedExactly | server/internal/deployments/repository/pgsql/pgsql_deployment.go:748-802 | which error is reported, or success |
| StatusConsumer.DeploymentRepository.ApplyStatusUpdate | server/internal/deployments/repository/pgsql/pgsql_deployment.go:748-860 | all of an update or nothing, terminal statuses fixed, success only with the status stored |
| StatusConsumer.DueAttempts | server/internal/deployments/usecase/deployment_ucase.go:277-299 | at most three applies are made, each after the first only because the one before hit a database error |
| StatusConsumer.Consumer.HandleStatusMessage | server/internal/deployments/usecase/deployment_ucase.go:258-338 | exactly one ack or nack unless shutdown cuts off a wait; ack exactly after a successful apply; never requeued; at most three applies, none after a permanent error; waits within the table |
| StatusConsumer.Consumer.RunStatusConsumerLoop | server/internal/deployments/usecase/deployment_ucase.go:140-177 | the wait after each session is min(2^j s, 30 s), j counting the sessions since the last one of a minute |
| StatusConsumer.SinceLongExactly | server/internal/deployments/usecase/deployment_ucase.go:140-177 | j is counted back to the last session that ran for at least a minute, or to the first |
| Redelivery.RedeliveryConverges | server/internal/deployments/usecase/deployment_ucase.go:240-257 | for every rule that never lowers the rank and fixes terminal statuses, redelivering applied updates at any later points leaves the final status |
| Redelivery.WorkerUpdatesConverge | server/internal/deployments/repository/pgsql/pgsql_deployment.go:789-802 | updates that never say pending always converge in status under redelivery |
| Redelivery.StatusConvergesExactly | server/internal/deployments/repository/pgsql/pgsql_deployment.go:786-802 | under the rule in force redelivery is harmless to the status exactly when some status is terminal or all are the same |
| Redelivery.RowConvergesExactly | server/internal/deployments/repository/pgsql/pgsql_deployment.go:822-848 | for the worker's updates the whole row is safe from redelivery exactly when the applied ones agree in url and text |
| Credentials.GrantableExactly | server/internal/deployments/credentials/credentials.go:36-62 | a credential can be had under some installation and tokens exactly when the id is not blank and its stored row is neither success nor canceled and names an installation |
| Credentials.GrantedExactly | server/internal/deployments/credentials/credentials.go:36-62 | for every input: a credential is granted exactly when the id and its row allow it, the row's installation is recorded, active and connected, and the provider has a token for that installation's account; it is that token |
| Credentials.RefusalExactly | server/internal/deployments/credentials/credentials.go:36-62 | otherwise the first obstacle is reported |
| Credentials.OnlyOwnAccountMatters | server/internal/deployments/credentials/credentials.go:57-62 | providers that agree on the installation's account give the same answer |
| Credentials.OnlyOwnRowMatters | server/internal/deployments/credentials/credentials.go:33-46 | no other deployment and no other installation makes a difference |
| Credentials.FinishedStaysRefused | server/internal/deployments/credentials/credentials.go:40-46 | once stored, success or canceled stays and refuses credentials through all later updates and database faults |
| PipelineSafety.RunIsSound | server/internal/deployments/dispatcher/outbox_dispatcher.go:208-332 | the inductive invariant: every action of every process, every crash and every lost session keeps queues, rows, updates and processes in order |
| NoLoss.ActionKeepsHeld | worker-server/internal/worker/worker.go:95-147 | no action drops a job that is queued, dead-lettered, in a worker's hands, completed or noted as vanished |
| NoLoss.RunKeepsEvents | server/internal/deployments/dispatcher/outbox_dispatcher.go:307-332 | in every run each recorded event is unsent in the outbox or its job is held further on |
| Deliveries.ActionKeepsMessage | worker-server/internal/worker/worker.go:95-147 | a message leaves the broker only by an ack that arrives, from a worker that has finished the job or published its retry |
| Deliveries.MessagesStay | worker-server/internal/worker/worker.go:95-147 | so in every run it is queued, dead-lettered or unsettled until such an ack |
| Deliveries.SettlementExactly | worker-server/internal/worker/worker.go:102-147 | where each settlement leaves the message: an ack that arrives removes it, a nack without requeue dead-letters it, everything else returns it; a lost session settles nothing |
| LostRetry.NoLossExactly | worker-server/internal/worker/worker.go:127-139 | no accepted build is lost in any run exactly when publishes that returned nil were taken by the broker, or no retry is allowed |
| Guarantees.QueuesAreGenuine | server/internal/deployments/dispatcher/outbox_dispatcher.go:268-289 | every message on `deploy.jobs` or its dead letters is accepted by the worker and repeats an outbox payload but for the retry count |
| Guarantees.ServerTellsTheTruth | worker-server/internal/deployments/deployments.go:415-423 | the server says success only after a worker committed the finish of that row and later published success, canceled only after a failure at the limit and a later publish of canceled, and never failed |
| Guarantees.SentIsConfirmed | server/internal/deployments/dispatcher/outbox_dispatcher.go:289-332 | with any number of dispatchers and resets, a row is sent, or gone, only if the broker acked a publish of its message |
| Guarantees.CompletedWasInserted | worker-server/internal/deployments/deployments.go:425-443 | a job completes only after a first attempt with a credential inserted its row |
| Guarantees.FinalStatusIsFinal | server/internal/deployments/repository/pgsql/pgsql_deployment.go:789-802 | in every run a terminal status on the server never changes again |
| Guarantees.RankNeverFalls | server/internal/deployments/usecase/deployment_ucase.go:240-257 | in every run a deployment's status on the server never goes back |
| Guarantees.ReappliedIsHarmless | server/internal/deployments/usecase/deployment_ucase.go:240-257 | an update that was applied leaves the status when it is applied again at any later point of any run |
| Announcements.ActionKeepsUpdate | server/internal/deployments/usecase/deployment_ucase.go:258-338 | no action takes an update from queue, consumers and dead letters, but for the ack of one that was applied |
| Announcements.NoWordIsLost | server/internal/deployments/usecase/deployment_ucase.go:258-338 | in every run each final word that reached `deploy.status` is on its way, dead-lettered, or stored on the server |
| Guarantees.NoLateProcessing | server/internal/deployments/credentials/credentials.go:40-46 | after success or canceled no delivery makes a processing call for that deployment unless it already held its credential |
| Guarantees.SpentForever | server/internal/deployments/repository/pgsql/pgsql_deployment.go:506-737 | sent, dead-lettered and out-of-attempts rows stay as they are in every run, but for the deletion of old sent ones |
| Stranded.CanBeSentExactly | server/internal/deployments/repository/pgsql/pgsql_deployment.go:506-737 | in every reachable state a build in the outbox can still be sent by some continuation exactly when an attempt is left, or its row is publishing and some dispatcher has the event and has not published it, or was acked and has still to record it |
| Stranded.StrandsExactly | server/internal/deployments/repository/pgsql/pgsql_deployment.go:703-737 | a pending row stays pending in every continuation exactly when its attempts are used up |
| Stranded.BuildsCanStrand | server/internal/deployments/repository/pgsql/pgsql_deployment.go:703-737 | some run leads a valid build there |
| Finishing.CanFinishExactly | worker-server/internal/worker/worker.go:67-147 | in every reachable state of the pipeline a deployment that the server knows can still be completed by some continuation exactly when it has been, or some worker's attempt can still succeed, or a credential would be granted and a message can be had that finds the worker's row or inserts it |
| Finishing.HopeWas | worker-server/internal/deployments/deployments.go:425-443 | no action of any process, and no crash or lost session, brings that back |
| Finishing.DeliveryShape | worker-server/internal/deployments/deployments.go:562-618 | in every delivery the credential comes first, then at most one insert, then at most one read of the tag; it completes exactly when all of them and the attempt worked |
| Finishing.MessageWas | worker-server/internal/worker/worker.go:127-139 | a message is in the queue only if it was there, was in a worker's hands, or a publish of it by a worker or a dispatcher arrived |
| Paths.RelativeComponentsExactly | worker-server/internal/deployments/detect.go:479 | cleaning a relative path gives the one normal form that leads, from every directory, where the path leads |
| Paths.RootedComponentsExactly | worker-server/internal/deployments/detect.go:484 | and of a rooted one, the names of the directory to which it leads |
| Paths.ClimbsExactly | worker-server/internal/deployments/detect.go:479-482 | the normal form begins with dots exactly when the path is above its start at some point on its way |
| Paths.RelLeadsThere | worker-server/internal/deployments/detect.go:486-492 | a relative path leads from the one to the other, wherever they are |
| Paths.SecondCheckNeverFires | worker-server/internal/deployments/detect.go:486-492 | the relative path of the joined directory is the cleaned working directory again, so the second check cannot fail |
| Paths.PathChecksExactly | worker-server/internal/deployments/detect.go:470-492 | a working directory passes exactly when it is not absolute, not backslashed and never goes above its start; the path is then where its components lead, step by step, from the repository |
| Paths.SanitizeExactly | worker-server/internal/deployments/detect.go:681-689 | refuses exactly absolute paths, the root and what begins with two dots; what passes is inside the repository |
| Detect.OutputStaysInside | worker-server/internal/deployments/detect.go:691-712 | for all overrides a static builder's output directory is a non-empty relative path without climbing components |
| Detect.OutputExactly | worker-server/internal/deployments/detect.go:691-712 | react reads the build path, vite and astro the configured directory; a usable override is cleaned, and otherwise the default stands |
| Detect.StaticExactly | worker-server/internal/deployments/detect.go:31-125 | which builders are static, and where they write by default |
| Detect.HasRootManifest | worker-server/internal/deployments/detect.go:393-417 | the loops find a manifest exactly when one of the three kinds is there |
| Detect.DetectFrameworkAtRoot | worker-server/internal/deployments/detect.go:531-578 | the first builder with a configuration file decides, then the first with a dependency, then the fallbacks |
| Detect.ConfiguredAnswer | worker-server/internal/deployments/detect.go:531-547 | the first builder with a configuration file is the answer, unless it is vite or astro and a dependency tells a recipe or a framework without one |
| Detect.UnconfiguredAnswer | worker-server/internal/deployments/detect.go:550-578 | without one: the first builder that the dependencies name, else Node, else Docker, else none |
| Detect.RootFilesExactly | worker-server/internal/deployments/detect.go:291-307 | the known files are the lower-case names of the files of a readable directory |
| Detect.LowerExactly | worker-server/internal/deployments/detect.go:291-307 | two names are the same file exactly when they differ in letter case at most |
| Detect.LookupExactly | worker-server/internal/deployments/detect.go:309-321 | the package.json is the entry of exactly that name |
| Detect.ConfigurationIsSeen | worker-server/internal/deployments/detect.go:534-537 | a configuration file is seen in whatever case its name is written |
| Detect.DockerfileIsSeen | worker-server/internal/deployments/detect.go:572-575 | a directory with nothing but a Dockerfile is built by it |
| Detect.DevDependenciesCount | worker-server/internal/deployments/detect.go:323-333 | dependencies and devDependencies count alike |
| Detect.SpecialComesBeforeGeneral | worker-server/internal/deployments/detect.go:176-190 | a project of next, remix, gatsby or angular is never taken for react, nuxt not for vue, sveltekit not for svelte, whatever else it declares |
| Detect.DisguiseUnnoticedExactly | worker-server/internal/deployments/detect.go:531-578 | a project with server-framework dependencies passes for a static vite or astro one exactly when it has no configuration file, declares a dependency of that builder and none of an earlier builder |
| Detect.VikePassesForVite | worker-server/internal/deployments/detect.go:531-578 | a directory with only a package.json that declares vite and vike is detected as static vite |
| Detect.FirstOfIsFirst | worker-server/internal/deployments/detect.go:176-217 | the builder that is found is the earliest in priority that matches |
| Detect.ManifestMatchesDetection | worker-server/internal/deployments/detect.go:393-417 | the two manifest tests agree exactly outside two shapes of package.json beside no configuration file and no Dockerfile |
| Detect.ShapesThatDisagree | worker-server/internal/deployments/detect.go:393-417 | a package.json with scripts only is a manifest without a framework, one with empty dependencies is detected without being a manifest |
| Discovery.AppDiscovery.WalkDir | worker-server/internal/deployments/detect.go:421-452 | visiting a directory appends the candidates below it, in walk order |
| Discovery.AppDiscovery.VisitEntry | worker-server/internal/deployments/detect.go:424-452 | the callback's pruning: files, skipped names, depth, manifests |
| Discovery.SkippedExactly | worker-server/internal/deployments/detect.go:215-226 | names that are not searched: hidden ones and six others |
| Discovery.NestedIsNear | worker-server/internal/deployments/detect.go:441-444 | nothing deeper than two levels is taken |
| Discovery.LessExactly | worker-server/internal/deployments/detect.go:456 | the order of candidates: the first character that differs decides |
| Discovery.FoundExactly | worker-server/internal/deployments/detect.go:419-452 | for every tree and depth the walk finds exactly the directories with a manifest, no skipped component and no manifest above them |
| Discovery.CandidatesAreApart | worker-server/internal/deployments/detect.go:446-449 | no candidate lies inside another |
| Discovery.DiscoverAppCandidates | worker-server/internal/deployments/detect.go:421-458 | the result is strictly ascending and holds exactly the candidates' paths |
| Discovery.ResolveExplicit | worker-server/internal/deployments/detect.go:473-506 | accepted exactly if the path checks pass and its components lead, step by step, to an accessible directory; each refusal has its own error |
| Discovery.ResolveAppDir | worker-server/internal/deployments/detect.go:470-527 | without a working directory it refuses exactly when several candidates compete, and otherwise takes the root or the only candidate |
| Discovery.DetectFramework | worker-server/internal/deployments/detect.go:588-609 | the root's answer, or that of the only nested candidate, or a refusal when there are several |
| Template.OthersUnchanged | worker-server/internal/deployments/deployments.go:282-292 | the rendering is the identity for npm and unknown managers |
| Template.CommandsExactly | worker-server/internal/deployments/deployments.go:81-101 | the install commands and lockfiles of the three managers |
| Template.NoInstallWithoutCorepack | worker-server/internal/deployments/deployments.go:305-310 | for every template, pnpm and yarn installs in the output directly follow a corepack line |
| Corepack.LinesCounted | worker-server/internal/deployments/deployments.go:282-310 | for every template: one corepack line more for each install behind RUN, npm's or the manager's own, and a second one for each of them that is a production install |
| Rendering.RendersPieceByPiece | worker-server/internal/deployments/deployments.go:282-319 | for pnpm, yarn and bun and every template made of the commands to rewrite and of text in which no rewrite can begin, the seven rewrites translate each command for itself and keep the text; bun swaps the builder and unnamed stages only |
| Dockerfiles.CutTextRenders | worker-server/internal/deployments/deployments.go:282-319 | the same for every text cut into such parts, by a test on single characters |
| Dockerfiles.RepositoryTemplatesRender | worker-server/templates/dynamic/Dockerfile.node.tmpl:1-24 | the node template and the static react template are such texts |

## Left out

- Contract.RoundTrip: strings are Unicode text; Go strings that are not valid UTF-8, which `json.Marshal` rewrites, are not part of this model.
- Contract.PublishedIsReceived: likewise for text that is not valid UTF-8.
- JSON key matching: Go also matches member names that differ in letter case; the model matches exact names, and takes the last of repeated members as given.
- Lower-casing of file names: ASCII letters only; Unicode case mappings are not part of this model.
- Text of errors and logs: an update's error text is one fixed text for each reason.
- Generations and build numbers: `IsCurrentGeneration` only changes a log line, and their assignment is not part of this model.
- The dispatcher's `Run` ticker loop: it only alternates `DispatchBatch` and `Reconcile`, which the pipeline may interleave in any order.
- AMQP channel set-up and prefetch windows: any number of deliveries may be in hand at once.
- Symbolic links: `ResolveAppDir` is contained lexically only; what a link leads to is not part of this model.
- git, buildah, uploads and reads of configuration files: each is an outcome chosen freely, and override strings are arbitrary.
- Python template rendering, package-manager detection, clone-url checks and command policy: one-branch facts.
- HTTP handlers, OAuth, projects, the client: request plumbing around the pipeline.
- Liveness of the whole pipeline: proved for the worker's loop and the dispatcher's batch alone; for the pipeline the results are about safety.
