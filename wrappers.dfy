/** Shared by the model: Go's nil pointers and nil errors, and a fact about sequences. */
module Wrappers {

  datatype Option<+T> = None | Some(value: T)

  lemma ConcatAssoc<T>(a: seq<T>, b: seq<T>, c: seq<T>)
    ensures a + b + c == a + (b + c)
  {
  }
}
