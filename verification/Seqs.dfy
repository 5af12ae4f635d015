/** Regrouping of concatenations, for proofs that fold over appended sequences. */
module Seqs {
  lemma Regroup<T>(x: seq<T>, y: seq<T>, z: seq<T>)
    ensures (x + y) + z == x + (y + z)
  {
  }

  /** From `from` on, every element recurs n places later. */
  predicate Repeats<T(==)>(s: seq<T>, from: int, n: nat) {
    forall i | 0 <= i && from <= i < |s| - n :: s[i] == s[i + n]
  }

  /** That is, dropping the last n of them leaves what dropping the first n does. */
  lemma RepeatsIsShift<T>(s: seq<T>, from: nat, n: nat)
    requires from + n <= |s|
    ensures Repeats(s, from, n) <==> s[from..|s| - n] == s[from + n..]
  {
    var x, y := s[from..|s| - n], s[from + n..];
    if x == y {
      forall i | from <= i < |s| - n ensures s[i] == s[i + n] { assert x[i - from] == y[i - from]; }
    }
    if Repeats(s, from, n) {
      forall j | 0 <= j < |x| ensures x[j] == y[j] { assert s[from + j] == s[from + j + n]; }
    }
  }

  /** Appending the last elements `l` of `x` once more leaves the last `limit` as they were: there are
      none of them, or `limit` cuts and what is in its window recurs |l| places later. */
  predicate Recurs<T(==)>(x: seq<T>, l: seq<T>, limit: int) {
    l == [] || (0 < limit <= |x| && Repeats(x + l, |x| - limit, |l|))
  }

  /** The parts of a concatenation by position. */
  lemma Parts<T>(x: seq<T>, y: seq<T>)
    ensures (x + y)[..|x|] == x && (x + y)[|x|..] == y
  {
  }
}
