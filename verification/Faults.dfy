/**
 How calls to the outside can end. A call that reports an error may
 nevertheless have taken effect, and a publish without a broker confirmation
 may report success although the message is gone.
 */
module Faults {

  datatype Db = Fine | Fault(applied: bool) {
    predicate Took() { Fine? || applied }
  }

  // Channel.Publish without confirms: nil and queued, nil but gone, or an error.
  datatype Publish = Queued | Vanished | Refused(queued: bool) {
    predicate Returned() { !Refused? }
    predicate Arrived() { Queued? || (Refused? && queued) }
  }

  // PublishConfirmed: broker ack, broker nack, another error, or an error
  // during shutdown or after a deadline. After an error nobody knows whether
  // the broker holds the message.
  datatype Confirm = Acked | Nacked | Broken(queued: bool) | Interrupted(queued: bool) {
    predicate Arrived() { Acked? || ((Broken? || Interrupted?) && queued) }
  }
}
