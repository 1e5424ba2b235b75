/** Failure-compatible wrappers, bytes and a fact about sets, shared by the components of the model. */
module Outcomes {

  datatype Option<+T> = None | Some(value: T)

  /** What a fallible operation returned. A Rust `?` becomes `:-`. */
  datatype Result<+T, +E> = Ok(value: T) | Err(error: E) {
    predicate IsFailure() {
      Err?
    }

    function PropagateFailure<U>(): (r: Result<U, E>)
      requires Err?
    {
      Err(error)
    }

    function Extract(): T
      requires Ok?
    {
      value
    }
  }

  datatype Unit = Unit

  type Byte = c: char | c as int < 256
  type Bytes = seq<Byte>

  /** Largest value of an unsigned 64-bit counter. */
  const MAX_U64: nat := 0xFFFF_FFFF_FFFF_FFFF

  lemma SubsetSize<T>(small: set<T>, big: set<T>)
    requires small <= big
    ensures |small| <= |big|
  {
    assert big == small + (big - small);
  }
}
