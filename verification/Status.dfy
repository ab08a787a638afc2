/** What deploy.status carries from the worker to the server. */
module Status {

  datatype Status = Pending | Building | Success | Failed | Canceled {
    predicate Terminal() { Success? || Failed? || Canceled? }
  }

  // Why an attempt failed; stands for the error text.
  datatype Reason =
    | NoReason | TagUnreadable | CheckoutFailed | AppDirUnresolved | PrepareFailed | BuildFailed
    | ServerSideRendering | RetriesExhausted

  /** Stands for the text: empty exactly when there is no reason. */
  function Text(r: Reason): string {
    match r
    case NoReason => ""
    case TagUnreadable => "failed to read image tag"
    case CheckoutFailed => "git checkout failed"
    case AppDirUnresolved => "resolve application directory failed"
    case PrepareFailed => "clone/prepare failed"
    case BuildFailed => "build failed"
    case ServerSideRendering => "detected server-side rendering"
    case RetriesExhausted => "max retries exceeded"
  }

  datatype Update = Update(deploymentId: string, status: Status, outputUrl: string, reason: Reason)
}
