/**
 * Facts about sequences that the proofs of several components share: where
 * an element of a sequence sits, and how joined pieces come apart again.
 */
module Seqs {
  /** An element of a non-empty sequence is one of its first |s| - 1 elements or its last. */
  lemma InitLast<T>(s: seq<T>, x: T)
    requires s != []
    ensures x in s <==> x in s[..|s| - 1] || x == s[|s| - 1]
  {
    assert s == s[..|s| - 1] + [s[|s| - 1]];
  }

  /** In a duplicate-free sequence the last element does not occur before it. */
  lemma LastNotInInit<T>(s: seq<T>)
    requires s != [] && forall i, j :: 0 <= i < j < |s| ==> s[i] != s[j]
    ensures s[|s| - 1] !in s[..|s| - 1]
  {
    var init := s[..|s| - 1];
    forall i | 0 <= i < |init| ensures init[i] != s[|s| - 1] {
      assert init[i] == s[i];
    }
  }

  /** Two joins of equal-length middles around the same prefix and separator agree part by part. */
  lemma SameJoin<T>(pre: seq<T>, h1: seq<T>, h2: seq<T>, sep: seq<T>, n1: seq<T>, n2: seq<T>)
    requires |h1| == |h2| && pre + h1 + sep + n1 == pre + h2 + sep + n2
    ensures h1 == h2 && n1 == n2
  {
    var a, b := pre + h1 + sep + n1, pre + h2 + sep + n2;
    var p := |pre|;
    assert h1 == a[p..p + |h1|] && h2 == b[p..p + |h2|];
    assert n1 == a[p + |h1| + |sep|..] && n2 == b[p + |h2| + |sep|..];
  }

  /** Appending two pieces one after the other is appending them together. */
  lemma AppendTwo<T>(a: seq<T>, b: seq<T>, c: seq<T>, d: seq<T>)
    ensures a + b + c + d == a + (b + c + d)
  {
  }

  /** A sequence that agrees with `done` and then holds `next` is `done + [next]`. */
  lemma SnocEqual<T>(longer: seq<T>, done: seq<T>, next: T)
    requires |longer| == |done| + 1 && longer[|done|] == next
    requires forall i :: 0 <= i < |done| ==> longer[i] == done[i]
    ensures done + [next] == longer
  {
  }

  /** Taking a member out of a set leaves one element fewer. */
  lemma RemoveOne<T>(s: set<T>, x: T)
    requires x in s
    ensures |s - {x}| == |s| - 1
  {
  }

  /** What a prefix leaves of a sequence's elements is the rest of the sequence. */
  lemma PrefixRest<T>(s: seq<T>, m: nat)
    requires m <= |s|
    ensures multiset(s[..m]) <= multiset(s)
    ensures multiset(s) - multiset(s[..m]) == multiset(s[m..])
  {
    assert s == s[..m] + s[m..];
  }
}
