/** Small failure-carrying datatypes shared by every module of the model, and `n` copies of a value. */
module Basics {

  /** A value that may be absent: Python's `None` or a missing dictionary key. */
  datatype Option<+T> = None | Some(value: T)

  /** The outcome of a check that raises on failure and returns nothing otherwise. */
  datatype Outcome<+E> = Pass | Fail(error: E)

  /** A computation that either returns a value or raises an error. */
  datatype Result<+T, +E> = Ok(value: T) | Err(error: E)

  /** `n` copies of `x`. */
  function Repeat<T>(x: T, n: nat): (xs: seq<T>)
    ensures |xs| == n
  {
    if n == 0 then [] else Repeat(x, n - 1) + [x]
  }

  /** Every element of `Repeat(x, n)` is `x`. */
  lemma {:induction false} RepeatElements<T>(x: T, n: nat)
    ensures forall y <- Repeat(x, n) :: y == x
  {
    if n > 0 {
      RepeatElements(x, n - 1);
    }
  }
}
