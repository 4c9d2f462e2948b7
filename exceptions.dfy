/** The exceptions the services throw and the middleware classifies, as values.
    A .NET exception object is an instance of its own class and of every base class; the model keeps
    the set of the classes that the error-handling switch and the simulator loop test for. */
module Exceptions {

  datatype ExceptionType =
    | KeyNotFound          // System.Collections.Generic.KeyNotFoundException
    | UnauthorizedAccess   // System.UnauthorizedAccessException
    | Argument             // System.ArgumentException (and ArgumentNullException, ... which derive from it)
    | InvalidOperation     // System.InvalidOperationException (and its subclasses)
    | DuplicateShipCode    // ShipManagement.Exceptions.DuplicateShipCodeException
    | DuplicateUserName    // ShipManagement.Exceptions.DuplicateUserNameException
    | OperationCanceled    // System.OperationCanceledException (and TaskCanceledException)

  /** An exception object: the classes it is an instance of, and its Message. */
  datatype Exception = Exception(types: set<ExceptionType>, message: string)

  function KeyNotFoundException(message: string): Exception
  {
    Exception({KeyNotFound}, message)
  }

  function DuplicateShipCodeException(message: string): Exception
  {
    Exception({DuplicateShipCode}, message)
  }

  function DuplicateUserNameException(message: string): Exception
  {
    Exception({DuplicateUserName}, message)
  }

  /** The outcome of an operation that either returns a value or throws. */
  datatype Result<+T> = Ok(value: T) | Err(error: Exception)

  /** The outcome of an operation that returns nothing or throws. */
  datatype Outcome = Done | Threw(error: Exception)
}
