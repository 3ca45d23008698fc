/** The exceptions the engine throws or lets the Kotlin runtime throw, and the
    failure-compatible wrappers that carry them through the model. */
module Exceptions {

  /** One constructor per exception class the core can raise. */
  datatype Exception =
    | IllegalArgument   // kotlin.IllegalArgumentException (size checks, empty coerceIn range)
    | Arithmetic        // java.lang.ArithmeticException (coercing a zero-length vector)
    | IndexOutOfBounds  // IndexOutOfBoundsException from list and array access
    | TypeCast          // kotlin.TypeCastException (Matrix.toVector)
    | NotImplemented    // kotlin.NotImplementedError raised by TODO()
    | NumberFormat      // NumberFormatException from String.toDouble / String.toInt
    | NoSuchElement     // NoSuchElementException from Array.first { }

  /** The value of a call that either returns or throws. */
  datatype Result<+T> = Ok(value: T) | Err(error: Exception) {
    predicate IsFailure() { Err? }

    function PropagateFailure<U>(): Result<U>
      requires Err?
    {
      Err(error)
    }

    function Extract(): T
      requires Ok?
    {
      value
    }
  }

  /** The value of a call that returns Unit or throws. */
  datatype Outcome = Pass | Fail(error: Exception) {
    predicate IsFailure() { Fail? }

    function PropagateFailure(): Outcome
      requires Fail?
    {
      this
    }
  }

  /** Kotlin's nullable values. */
  datatype Option<+T> = None | Some(value: T)
}
