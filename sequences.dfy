/** Facts about sequence concatenation and slicing that the step-by-step
    loops and folds of the interpreter use, stated once. */
module Sequences {

  /** Regrouping a concatenation. */
  lemma ConcatAssoc<T>(a: seq<T>, b: seq<T>, c: seq<T>)
    ensures (a + b) + c == a + (b + c)
  {
  }

  /** A prefix one element longer. */
  lemma TakeSnoc<T>(s: seq<T>, k: nat)
    requires k < |s|
    ensures s[..k + 1] == s[..k] + [s[k]]
  {
  }

  /** The whole sequence as a prefix, and the empty one. */
  lemma TakeEnds<T>(s: seq<T>)
    ensures s[..|s|] == s && s[..0] == [] && s + [] == s
  {
  }

  /** Slicing a suffix again. */
  lemma SliceOfSuffix<T>(s: seq<T>, i: nat, n: nat)
    requires i + n <= |s|
    ensures s[i..][..n] == s[i..i + n] && s[i..][n..] == s[i + n..]
  {
  }

  /** A prefix and the matching suffix make up the whole. */
  lemma TakeDrop<T>(s: seq<T>, i: nat)
    requires i <= |s|
    ensures s[..i] + s[i..] == s
  {
  }

  /** Splitting the last element off a non-empty suffix. */
  lemma SnocSplit<T>(p: seq<T>, b: seq<T>)
    requires b != []
    ensures p + b == (p + b[..|b| - 1]) + [b[|b| - 1]]
  {
    assert b == b[..|b| - 1] + [b[|b| - 1]];
  }

  /** The four parts of a concatenation, sliced back out. */
  lemma Slices4<T>(a: seq<T>, b: seq<T>, c: seq<T>, d: seq<T>)
    ensures var s := a + b + c + d; var i, j, k := |a|, |a| + |b|, |a| + |b| + |c|;
      && s[..i] == a && s[i..j] == b && s[j..k] == c && s[k..] == d
  {
  }
}
