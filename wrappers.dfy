/** Optional values, Java exceptions and results that either carry a value or a thrown exception. */
module Wrappers {

  datatype Option<T> = None | Some(value: T)

  /** The Java exception classes the modelled code throws or catches. */
  datatype Exception =
    | IllegalState
    | IllegalArgument
    | UnsupportedOperation
    | NoSuchField
    | NoSuchMethod
    | ClassNotFound
    | EnumConstantNotPresent
    | IncompletePredicateBuilder
    | NumberFormat
    | IndexOutOfBounds
    | ClassCast
    | ReflectionFailure
    | ConcurrentModification

  /** The outcome of a Java call: a returned value or a thrown exception. */
  datatype Result<T> = Ok(value: T) | Throw(ex: Exception)
  {
    predicate IsFailure() { Throw? }

    function PropagateFailure<U>(): Result<U>
      requires Throw?
    {
      Throw(ex)
    }

    function Extract(): T
      requires Ok?
    {
      value
    }
  }
}
