/** The two exceptions the chromosome throws, as values: construction with a
    non-positive length raises std::invalid_argument, a base index outside the
    chromosome raises std::out_of_range. */
module Errors {

  datatype Fault = InvalidArgument | OutOfRange

  /** The result of an operation that returns a value or throws. */
  datatype Result<+T> = Ok(value: T) | Err(fault: Fault)

  /** The result of an operation that returns nothing or throws. */
  datatype Outcome = Pass | Fail(fault: Fault)
}
