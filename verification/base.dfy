/** Values shared by every component: optional values, thrown JavaScript values,
    and the subsequence relation that `Array.prototype.filter` results satisfy. */
module Base {

  /** `undefined`/`null` versus a present value. */
  datatype Option<+T> = None | Some(value: T)

  /** What a rejected promise or a `throw` carries: an `Error` instance with its
      `message` (possibly empty), or any other JavaScript value. */
  datatype Thrown = ErrorObject(message: string) | OtherValue

  /** `err instanceof Error ? err.message : fallback`. */
  function MessageOr(thrown: Thrown, fallback: string): (m: string)
    ensures thrown.ErrorObject? ==> m == thrown.message
    ensures thrown.OtherValue? ==> m == fallback
  {
    match thrown
    case ErrorObject(message) => message
    case OtherValue => fallback
  }

  /** `a` is obtained from `b` by deleting elements, the rest kept in order. */
  predicate IsSubsequence<T(==)>(a: seq<T>, b: seq<T>)
    decreases |b|
  {
    a == [] || (b != [] && ((a[0] == b[0] && IsSubsequence(a[1..], b[1..])) || IsSubsequence(a, b[1..])))
  }
}
