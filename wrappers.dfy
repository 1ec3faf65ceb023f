/** Option and outcome types, and sequence facts, shared by the modules of the viewer model. */
module Wrappers {

  /** `std::optional<T>`: either no value or one value. */
  datatype Option<+T> = None | Some(value: T)

  /** The outcome of an operation that returns nothing or raises an error. */
  datatype Outcome<+E> = Pass | Fail(error: E)

  /** Sequence concatenation is associative: logs and lists built piecewise can be regrouped. */
  lemma AppendAssociative<T>(a: seq<T>, b: seq<T>, c: seq<T>)
    ensures (a + b) + c == a + (b + c)
  {
  }

  /** A prefix one element longer is the prefix followed by that element. */
  lemma TakeStep<T>(s: seq<T>, i: nat)
    requires i < |s|
    ensures s[..i + 1] == s[..i] + [s[i]]
  {
  }

  /** Dropping the first part of a concatenation leaves the second. */
  lemma DropAppend<T>(a: seq<T>, b: seq<T>)
    ensures a <= a + b && (a + b)[|a|..] == b
  {
  }
}
