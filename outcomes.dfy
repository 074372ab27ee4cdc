/** Optional values and the exceptions the strategy raises, as values. */
module Outcomes {

  datatype Option<+T> = None | Some(value: T)

  /** The exceptions thrown by the strategy, one constructor per message. */
  datatype Error =
    | AlreadyAcquired       // loadOrCreateFann called but _fann is already a resource
    | NotAResource          // Cannot init fann, not a resource
    | SuppliedNotAResource  // supplied fann is not a resource
    | UnknownFannType       // Unknown fann type
    | CallbackTypeNotSet    // callback type not set

  datatype Result<+T> = Success(value: T) | Failure(error: Error)
}
