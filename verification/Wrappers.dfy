/** Optional values, and results that carry the source's error values. */
module Wrappers {

  datatype Option<+T> = None | Some(value: T)

  datatype Result<+T> = Ok(value: T) | Err(error: Error)

  /** The sentinel errors of internal/pkg/domain/error.go that the modelled code returns, with
      `ReferenceTaken` for the unique-index violation that one caller recognises by name and `Unavailable`
      for any failure of the connection. */
  datatype Error =
    | NotFound
    | Conflict
    | InvalidInput
    | OutOfStock
    | QueueSequenceExhausted
    | StaleClaim
    | PaymentClaimIntegrity
    | QueueDisabled
    | AlreadyPurchased
    | QueueFull
    | AttemptNotFound
    | InvalidTransition
    | AttemptGone
    | AdjustmentConflict
    | StockBelowReserved
    | StockBelowZero
    | StockOverflow
    | ReservedInvariant
    | ReferenceTaken
    | Unavailable
}
