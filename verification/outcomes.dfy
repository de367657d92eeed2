/** Failure values for the exceptions the Java code raises. */
module Outcomes {

  /** One constructor per kind of exception the modelled code can throw. */
  datatype Error =
    | IndexArity         // IllegalArgumentException: index count differs from the rank
    | IndexOutOfBounds   // ArrayIndexOutOfBoundsException
    | NegativeSize       // NegativeArraySizeException
    | SizeMismatch       // IllegalArgumentException: operand sizes differ
    | InvalidDimensions  // IllegalArgumentException: "Invalid output dimensions"
    | InvalidShape       // IllegalArgumentException: bad shape or padding argument
    | DivisionByZero     // ArithmeticException: integer division by zero
    | Unsupported        // UnsupportedOperationException from a base-class method

  datatype Result<+T> = Ok(value: T) | Err(error: Error)

  /** Outcome of an operation that returns nothing (a Java `void` method). */
  datatype Status = Done | Failed(error: Error)
}
