/** Small facts about sequences, kept apart so that the proofs using them
    do not have to rediscover them next to recursive definitions. */
module Sequences {

  /** A sequence around one of its positions. */
  lemma SplitAround<T>(s: seq<T>, i: nat)
    requires i < |s|
    ensures s == s[..i] + [s[i]] + s[i + 1..]
    ensures s[..i + 1] == s[..i] + [s[i]]
  {
  }

  lemma PrefixOfPrefix<T>(s: seq<T>, i: nat)
    requires i < |s|
    ensures s[..i + 1][..i] == s[..i] && |s[..i + 1]| == i + 1 && s[..i + 1][i] == s[i]
  {
  }

  lemma ConcatThree<T>(x: seq<T>, y: seq<T>, z: seq<T>)
    ensures x + (y + z) == x + y + z
  {
  }

  lemma ConsFour<T>(a: T, b: T, c: T, d: T)
    ensures [a, b, c, d] == [a] + ([b] + ([c] + [d]))
  {
  }

  /** A slice inside a prefix of s is the same slice of that prefix. */
  lemma SliceOfPrefix<T>(s: seq<T>, p: seq<T>, lo: nat, hi: nat)
    requires lo <= hi <= |p| <= |s| && s[..|p|] == p
    ensures s[lo..hi] == p[lo..hi]
  {
    forall i | lo <= i < hi ensures s[i] == p[i] {
      assert s[..|p|][i] == s[i];
    }
  }
}
