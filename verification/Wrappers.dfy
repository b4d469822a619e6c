/** Result and option types shared by the model; `Error` names the source's exception classes. */
module Wrappers {

  datatype Option<+T> = None | Some(value: T)

  // StateValidationError, OwnershipError, InvalidTransitionError, StateMissingError,
  // StateExistsError, ExamStateError, ExamConflictError, and the lifecycle errors.
  datatype Error =
    | Validation
    | Ownership
    | Transition
    | Missing
    | Exists
    | ExamState
    | Conflict
    | Lifecycle
    | Provider

  datatype Result<+T> = Ok(value: T) | Err(error: Error) {
    predicate IsFailure() {
      Err?
    }

    function PropagateFailure<U>(): Result<U>
      requires Err?
    {
      Err(error)
    }

    function Extract(): T
      requires Ok?
    {
      value
    }
  }

  /** What a caller sees of a multi-step operation: a value, a raised error, or a process that died. */
  datatype Outcome<+T> = Returned(value: T) | Raised(error: Error) | Crashed
}
