/** Outcomes of the service operations. The services signal every failure
    with an exception; here the failure is returned as a value that names
    what went wrong. */
module Results {

  /** A lookup that may find nothing (the store's `null`). */
  datatype Option<+T> = None | Some(value: T)

  /** The entity kind a `NotFound` error refers to. */
  datatype Entity = UserEntity | TransactionEntity | GoalEntity

  /** The failures the services report. */
  datatype Error =
    | NotFound(entity: Entity, id: int)
    | DuplicateEmail(email: string)
    | InvalidCredentials

  /** The outcome of an operation that returns a value. */
  datatype Result<+T> = Ok(value: T) | Err(error: Error)

  /** The outcome of an operation that returns nothing. */
  datatype Outcome = Done | Failed(error: Error)
}
