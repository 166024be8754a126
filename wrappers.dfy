/** Option and Result: PHP's nullable values and thrown exceptions, as values. */
module Wrappers {

  /** `None` stands for PHP's `null`. */
  datatype Option<+T> = None | Some(value: T)

  /** `Failure` stands for an exception thrown out of the operation. */
  datatype Result<+R, +E> = Success(value: R) | Failure(error: E)
}

/** The exceptions the application layer throws, each with the message it is built with. */
module Exceptions {

  datatype Exception =
    | InvalidArgumentException(message: string)
    | OutOfBoundsException(message: string)
}
