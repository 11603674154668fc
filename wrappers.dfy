/** Optional values and results with an error, used where the adapter returns
    `null` or throws a checked exception. */
module Wrappers {

  /** `None` stands for Java's `null`. */
  datatype Option<+T> = None | Some(value: T)

  /** `Failure` stands for a thrown `ParseException`. */
  datatype Result<+R, +E> = Success(value: R) | Failure(error: E)
}
