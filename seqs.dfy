/** A fact about sequences the proofs use by name. */
module Seqs {

  /** Concatenation is associative; stated once so that proofs need not rediscover it element by element. */
  lemma ConcatAssoc<T>(a: seq<T>, b: seq<T>, c: seq<T>)
    ensures a + b + c == a + (b + c)
  {
  }
}
