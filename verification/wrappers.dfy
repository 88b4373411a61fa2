/** Small value wrappers shared by both lineages: a nullable reference, the result of a
    call that may throw, and the run-time view of a `System.Object` argument. */
module Wrappers {

  /** A reference that may be null. */
  datatype Option<+T> = None | Some(value: T)

  /** The outcome of a call that either returns a value or throws. */
  datatype Result<+R, +E> = Success(value: R) | Failure(error: E)

  /** The exceptions the modelled members can throw. */
  datatype Exception = InvalidCastException

  /** What an `object`-typed parameter can hold at run time: null, a (boxed) `T`,
      or an instance of some unrelated type. */
  datatype Object<+T> = Null | Instance(value: T) | OtherType
}
