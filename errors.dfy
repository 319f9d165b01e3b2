/** The three exceptions the calculator raises, plus the division-by-zero
    outcome this model makes explicit, and the result types that carry them. */
module RPNErrors {

  /** StackEmptyException, TooManyOperandsException, UnknownOperatorException,
      and DivisionByZero (see the README: the source has no guard). */
  datatype Err = StackEmpty | TooManyOperands | UnknownOperator | DivisionByZero

  /** A value or the error that was raised instead of producing it. */
  datatype Result<+T> = Ok(value: T) | Fail(error: Err)

  datatype Option<+T> = None | Some(value: T)
}
