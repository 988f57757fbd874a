/** Fatal conditions of a qu run.
  *
  * Every error-handler call in the interpreter prints a message and exits the
  * process, so an error here is a value that ends the run.  The call sites use
  * names that do not match the handler's declarations; the kinds below follow
  * the call sites.
  */
module QuErrors {

  datatype ErrorKind =
    | NotEnoughArguments
    | OperationMismatch
    | DivisionByZero
    | InvalidGoto
    | InvalidPush
    | UnknownInstruction
    | ReturnFromEmptyQueue
    | NonIntegerReturnValue
    | UnspecifiedComparisonOperation
      /** A label line whose first and last `|` coincide; `column` is that bar's index. */
    | SingleBar(column: nat)
      /** A `std::out_of_range` that nothing catches: `substr` past the end of the
        * line, or `stoi` of an out-of-range number in READ. */
    | UncaughtOutOfRange

  /** How a run stops abnormally: an error that exits, or a point where the
    * C++ behaviour is undefined (the model does not guess what happens next). */
  datatype Fault =
    | Error(kind: ErrorKind, line: int)
    | Undefined(line: int)

  /** Result of a computation that may stop the run. */
  datatype Result<+T> = Success(value: T) | Failure(fault: Fault) {
    predicate IsFailure() { Failure? }

    function PropagateFailure<U>(): Result<U>
      requires Failure?
    {
      Failure(fault)
    }

    function Extract(): T
      requires Success?
    {
      value
    }
  }

  /** Result of an operation that changes state in place. */
  datatype Status = Ok | Abort(fault: Fault) {
    predicate IsFailure() { Abort? }

    function PropagateFailure(): Status
      requires Abort?
    {
      this
    }
  }
}
