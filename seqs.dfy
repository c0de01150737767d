/** Identities of sequence concatenation and slicing, stated once for any
    element type. Citing one as a lemma gives a proof the single fact it
    needs without unfolding the sequences it is about. */
module Seqs {
  lemma AppendAssoc<T>(a: seq<T>, b: seq<T>, c: seq<T>)
    ensures (a + b) + c == a + (b + c)
  {
  }

  /** A non-empty sequence is its front followed by its last element. */
  lemma SnocSplit<T>(q: seq<T>)
    requires |q| > 0
    ensures q == q[..|q| - 1] + [q[|q| - 1]]
  {
  }

  /** The front of a sequence with one element appended. */
  lemma FrontOfSnoc<T>(p: seq<T>, x: T)
    ensures (p + [x])[..|p|] == p
  {
  }
}
