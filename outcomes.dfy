/** How the shape operations report what the Java code signals by throwing. */
module Outcomes {

  /** Outcome of a validating setter: it completes, or it throws an
      IllegalArgumentException carrying the given message. */
  datatype Status = Done | IllegalArgument(message: string)

  /** Outcome of a validating constructor: the new object, or the message of
      the IllegalArgumentException that stopped its construction (the object
      then never becomes visible). */
  datatype Result<T> = Success(value: T) | Failure(message: string)

  /** A value, or the absence of one where the Java code would throw. */
  datatype Option<T> = None | Some(value: T)
}
