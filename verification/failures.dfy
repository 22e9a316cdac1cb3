/** The outcome of a registry or buffer operation that can fail before it
    changes anything: the Java code throws, and the object keeps its state. */
module Failures {

  datatype Result<+T, +X> = Success(value: T) | Failure(error: X)

}
