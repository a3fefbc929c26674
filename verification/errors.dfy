/** The exceptions the ordering domain throws, as values. */
module DomainErrors {

  /** Which exception an operation throws. */
  datatype Error =
    | IllegalArgument      // java.lang.IllegalArgumentException
    | ArithmeticError      // java.lang.ArithmeticException (division by zero in BigDecimal)
    | IncompatibleProduct  // ShoppingCartItemIncompatibleProductException

  /** The value an operation returns, or the exception it throws. */
  datatype Result<+T> = Ok(value: T) | Err(error: Error)

  /** The outcome of a void operation: it returns normally or throws. */
  datatype Outcome = Pass | Fail(error: Error)
}
