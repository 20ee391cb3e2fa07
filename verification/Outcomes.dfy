/** Results of the control plane's calls: optional values, and calls that either return
    or raise. */
module Outcomes {

  datatype Option<+T> = None | Some(value: T)

  /** The refusals a store method raises as a `StateError`, one constructor per message. */
  datatype Reason =
    | InvalidArgument
    | RoleBusy
    | GlobalCapReached
    | CumulativeCapReached
    | ConcurrentCapReached
    | SessionInactive
    | SessionNotExpired
    | WorkersActive
    | WorkersOrBudgetActive
    | BucketMismatch
    | LimitChanged
    | BudgetHold
    | ReservationInactive
    | BucketInconsistent
    | BudgetBoundary
    | EventNotPending
    | RouteUnavailable
    | KeyReused
    | NotHeld
    | UnsafeOutcome
    | LeaseLost
    | NotBudgetHeld
    | DeliveryNotActive
    | DeliveryNotLeased
    | NotAnOrphan
    | WakeNotPrepared
    | WakeNotActive
    | WakeNotProcessFree
    | ProcessInactive
    | SnapshotUnknown
    | SnapshotFinal
    | SnapshotMismatch
    | CheckpointAbsent
    | RequestNotReserved
    | NotPlanned
    | BadTransition

  /** `IntegrityError` is the database's own refusal: a primary key, unique or foreign-key
      constraint that the statement would break. */
  datatype Failure = StateError(reason: Reason) | IntegrityError

  datatype Outcome<+T> = Ok(value: T) | Raised(error: Failure)
}
