/** The optional value used wherever the C code uses a nullable pointer. */
module Wrappers {
  datatype Option<+T> = None | Some(value: T)

  /** Appending one element, then a tail, is appending the element and the tail at once. */
  lemma Regroup<T>(a: seq<T>, x: T, d: seq<T>)
    ensures (a + [x]) + d == a + ([x] + d)
  {
  }
}
