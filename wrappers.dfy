/** Optional values and the outcome of a call that may throw. */
module Wrappers {

  /** `None` stands for JavaScript's `undefined` / `null` where the source
      reads a field or parameter that may be absent. */
  datatype Option<+T> = None | Some(value: T)

  /** The result of calling into code that may throw: the returned value,
      or the message of the thrown error. */
  datatype Attempt<+T> = Returned(value: T) | Threw(message: string)

  /** The elements of an optional value, as a sequence of length 0 or 1. */
  function ToSeq<T>(o: Option<T>): (r: seq<T>)
    ensures |r| <= 1
    ensures o.Some? <==> |r| == 1
    ensures o.Some? ==> r[0] == o.value
  {
    match o
    case None => []
    case Some(v) => [v]
  }
}
