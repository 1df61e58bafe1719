/**
 * Optional values and fallible results, standing for Go's nil and (value, error) pairs, and
 * the one fact about sequence concatenation the proofs keep needing.
 */
module Wrappers {

  datatype Option<+T> = None | Some(value: T) {
    function GetOr(default: T): T {
      match this
      case Some(v) => v
      case None => default
    }
  }

  /** A Go (value, error) return: exactly one of the two is meaningful. */
  datatype Result<+R, +E> = Success(value: R) | Failure(error: E)

  /** Concatenation is associative; the proofs call this where Dafny does not regroup unaided. */
  lemma Assoc<T>(a: seq<T>, b: seq<T>, c: seq<T>)
    ensures (a + b) + c == a + (b + c)
  {
  }
}
