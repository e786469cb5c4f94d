/** Values that stand in for Java's nullable references, thrown exceptions
    and JUnit pass/fail verdicts throughout the model. */
module Base {

  /** A Java reference that may be null. */
  datatype Option<+T> = None | Some(value: T) {

    /** The referenced value, or `default` when null. */
    function GetOr(default: T): T {
      match this
      case Some(v) => v
      case None => default
    }
  }

  /** What a call can throw. Java distinguishes `Exception`s, which a
      `catch (Exception e)` intercepts, from `Error`s, which it does not:
      RestAssured's status validation and JUnit's `Assert` both throw
      `java.lang.AssertionError`. */
  datatype Failure =
    | StatusMismatch(expected: int, actual: int)      // AssertionError from `.statusCode(expected)`
    | TransportFailure(reason: string)                // thrown by the network layer
    | ExtractionFailure(key: string, reason: string)  // a JSON-path lookup threw
    | NullDereference(reason: string)                 // NullPointerException
    | IllegalArgument(reason: string)                 // IllegalArgumentException
    | NumberFormat(reason: string)                    // NumberFormatException
    | AssertionFailed(reason: string)                 // AssertionError from JUnit `Assert`
  {
    /** True when the failure is a `java.lang.Exception`, false when it is an `Error`. */
    predicate IsException() {
      !StatusMismatch? && !AssertionFailed?
    }
  }

  /** A call that returns a value or throws. */
  datatype Result<+T> = Ok(value: T) | Err(failure: Failure) {
    predicate IsFailure() {
      Err?
    }

    function PropagateFailure<U>(): Result<U>
      requires Err?
    {
      Err(failure)
    }

    function Extract(): T
      requires Ok?
    {
      value
    }
  }

  /** A void call that returns normally or throws (JUnit assertions). */
  datatype Outcome = Pass | Fail(failure: Failure)
}
