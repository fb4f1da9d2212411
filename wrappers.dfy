/** Optional values and success-or-error results, used wherever the source returns null or throws. */
module Wrappers {
  datatype Option<T> = None | Some(value: T)
  {
    function UnwrapOr(default: T): (r: T)
      ensures this.Some? ==> r == value
      ensures this.None? ==> r == default
    {
      match this
      case Some(v) => v
      case None => default
    }
  }

  /** The outcome of an operation that either yields a value or throws. */
  datatype Result<T> = Success(value: T) | Failure(error: string)

  /** The .NET exceptions the modelled code can throw, by name. */
  const NullReference: string := "NullReferenceException"
  const IndexOutOfRange: string := "IndexOutOfRangeException"
  const NotImplemented: string := "NotImplementedException"
  const ArithmeticOverflow: string := "OverflowException"
  const NoElements: string := "InvalidOperationException: Sequence contains no elements"
}
