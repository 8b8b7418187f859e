/** Repeated elements and rearrangements. */
module Occurrences {

  lemma TwoOccurrences<T>(s: seq<T>, i: nat, j: nat)
    requires i < j < |s| && s[i] == s[j]
    ensures multiset(s)[s[i]] >= 2
  {
    assert s == s[..j] + s[j..];
    assert s[i] in s[..j] && s[i] in s[j..];
  }

  lemma OccursTwice<T>(s: seq<T>, x: T) returns (i: nat, j: nat)
    requires multiset(s)[x] >= 2
    ensures i < j < |s| && s[i] == s[j] == x
  {
    i :| 0 <= i < |s| && s[i] == x;
    assert s == s[..i] + [x] + s[i + 1..];
    if x in s[..i] {
      j := i;
      i :| 0 <= i < j && s[i] == x;
    } else {
      assert x in s[i + 1..];
      j :| i < j < |s| && s[j] == x;
    }
  }

  /** Two positions of a sequence, found again in any rearrangement of it. */
  lemma PairMoves<T>(s: seq<T>, t: seq<T>, i: nat, j: nat) returns (k: nat, l: nat)
    requires multiset(s) == multiset(t) && i < j < |s|
    ensures k < |t| && l < |t| && k != l && t[k] == s[i] && t[l] == s[j]
  {
    if s[i] == s[j] {
      TwoOccurrences(s, i, j);
      k, l := OccursTwice(t, s[i]);
    } else {
      assert s[i] in multiset(t) && s[j] in multiset(t);
      k :| 0 <= k < |t| && t[k] == s[i];
      l :| 0 <= l < |t| && t[l] == s[j];
    }
  }
}
