/** Success/failure outcome of an operation that the source lets throw (or whose promise rejects). */
module Wrappers {

  datatype Result<+T, +E> = Success(value: T) | Failure(error: E)
}
