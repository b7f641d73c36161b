/** Shared result types of the model. */
module Prelude {

  datatype Option<+T> = None | Some(value: T)

  /** What a fallible operation of the repository gives back: a value, or the error it raises. */
  datatype Result<+T, +E> = Ok(value: T) | Err(error: E)

  lemma SubsetSize<T>(a: set<T>, b: set<T>)
    requires a <= b
    ensures |a| <= |b|
  {
    assert b == a + (b - a);
  }
}
