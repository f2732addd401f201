/** What the other modules share. */
module Basics {
  datatype Option<+T> = None | Some(value: T)

  lemma Assoc<T>(a: seq<T>, b: seq<T>, c: seq<T>)
    ensures a + b + c == a + (b + c)
  {
  }

  /** A term to mention where the meaning of a folded predicate is needed. Such a predicate is written
      `forall u :: Lock(n, u) ==> P`: it is P, but a proof that only hands it on does not unfold it. The
      number n keeps predicates apart that should not be unfolded together. */
  ghost predicate Lock(n: int, u: int) { true }
}
