/** Small value wrappers shared by every module of the model. */
module Wrappers {

  /** A value that may be missing: a C# or TypeScript `null`. */
  datatype Option<+T> = None | Some(value: T)

  /** How a call into a collaborator ended: it returned a value, it returned
      null, or it threw. */
  datatype Outcome<+T> = Value(value: T) | Null | Threw

  /** No element occurs twice. */
  predicate Distinct<T(==)>(s: seq<T>) {
    forall i, j :: 0 <= i < j < |s| ==> s[i] != s[j]
  }

  /** `a` is `b` with some elements left out, order kept. */
  predicate IsSubsequence<T(==)>(a: seq<T>, b: seq<T>)
    decreases |b|
  {
    a == [] || (b != [] && ((a[0] == b[0] && IsSubsequence(a[1..], b[1..])) || IsSubsequence(a, b[1..])))
  }
}
