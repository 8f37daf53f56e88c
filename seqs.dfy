/** Facts about sequences that the order-independence proofs share. */
module Seqs {
  /**
   * In a permutation `b` of a non-empty `a`, the last element of `a` stands
   * at some index `i`; taking it out of both leaves permutations.
   */
  lemma PermutationSplit<T>(a: seq<T>, b: seq<T>) returns (i: nat)
    requires multiset(a) == multiset(b) && a != []
    ensures i < |b| && b[i] == a[|a| - 1]
    ensures a == a[..|a| - 1] + [a[|a| - 1]]
    ensures b == b[..i] + [b[i]] + b[i + 1..]
    ensures multiset(a[..|a| - 1]) == multiset(b[..i] + b[i + 1..])
  {
    var x := a[|a| - 1];
    var init := a[..|a| - 1];
    assert a == init + [x];
    assert x in multiset(b);
    i :| 0 <= i < |b| && b[i] == x;
    var lo, hi := b[..i], b[i + 1..];
    assert b == lo + [x] + hi;
    assert multiset(b) == multiset(lo) + multiset{x} + multiset(hi);
    assert multiset(lo + hi) == multiset(lo) + multiset(hi);
    assert multiset(a) == multiset(init) + multiset{x};
    assert multiset(init) == multiset(a) - multiset{x};
    assert multiset(lo + hi) == multiset(b) - multiset{x};
  }

  /** Only the empty sequence is a permutation of the empty sequence. */
  lemma PermutationOfEmpty<T>(b: seq<T>)
    requires multiset(b) == multiset{}
    ensures b == []
  {
    assert |b| == |multiset(b)|;
  }
}
