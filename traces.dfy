/** Event traces shared by the boot-stage models: a trace is the sequence of
    observable operations, in program order. A counted delay loop contributes one
    event per iteration, built with Repeat. */
module Traces {

  /** n copies of e, in the order a counted loop appends them. */
  function Repeat<E>(e: E, n: nat): (r: seq<E>)
    ensures |r| == n
    ensures forall i :: 0 <= i < n ==> r[i] == e
  {
    seq(n, _ => e)
  }

  /** One more iteration appends one more copy. */
  lemma RepeatSnoc<E>(e: E, n: nat)
    ensures Repeat(e, n + 1) == Repeat(e, n) + [e]
  {
  }

  /** e occurs in t at index k and nowhere else. */
  predicate OccursOnlyAt<E(==)>(t: seq<E>, e: E, k: nat)
  {
    k < |t| && t[k] == e && forall i | 0 <= i < |t| && t[i] == e :: i == k
  }
}
