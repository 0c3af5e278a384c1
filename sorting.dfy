/**
 * Go's `sort.Slice` and `sort.Strings`. The Go sorts are not stable; what the
 * bot relies on is only that the result is a permutation of the input that is
 * ordered by the comparison. `SortBy` is one such permutation (an insertion
 * sort); every property stated about it elsewhere holds for any of them.
 */
module Sorting {
  /** `le` is total and transitive on the elements of `s`. */
  ghost predicate TotalPreorderOn<T>(s: seq<T>, le: (T, T) -> bool)
  {
    (forall a, b :: a in s && b in s ==> le(a, b) || le(b, a))
    && (forall a, b, c :: a in s && b in s && c in s && le(a, b) && le(b, c) ==> le(a, c))
  }

  predicate SortedBy<T>(s: seq<T>, le: (T, T) -> bool)
  {
    forall i, j :: 0 <= i < j < |s| ==> le(s[i], s[j])
  }

  function Insert<T(==)>(x: T, s: seq<T>, le: (T, T) -> bool): (r: seq<T>)
    ensures multiset(r) == multiset(s) + multiset{x}
    ensures |r| == |s| + 1
  {
    if s == [] then [x]
    else if le(x, s[0]) then [x] + s
    else
      assert s == [s[0]] + s[1..];
      [s[0]] + Insert(x, s[1..], le)
  }

  /** A permutation of `s` ordered by `le`. */
  function SortBy<T(==)>(s: seq<T>, le: (T, T) -> bool): (r: seq<T>)
    ensures multiset(r) == multiset(s)
    ensures |r| == |s|
  {
    if s == [] then []
    else
      assert s == [s[0]] + s[1..];
      Insert(s[0], SortBy(s[1..], le), le)
  }

  lemma {:induction false} InsertSorted<T>(x: T, s: seq<T>, le: (T, T) -> bool)
    requires SortedBy(s, le)
    requires TotalPreorderOn([x] + s, le)
    ensures SortedBy(Insert(x, s, le), le)
  {
    if s != [] && !le(x, s[0]) {
      assert s[0] in [x] + s && x in [x] + s;
      assert le(s[0], x);
      var t := s[1..];
      assert s == [s[0]] + t;
      assert multiset(t) <= multiset(s);
      forall a | a in [x] + t ensures a in [x] + s {
        if a != x {
          assert a in multiset(t);
        }
      }
      InsertSorted(x, t, le);
      forall a | a in [x] + t ensures le(s[0], a) {
        if a != x {
          var j :| 0 <= j < |t| && t[j] == a;
          assert s[j + 1] == a;
        }
      }
      InsertBounded(s[0], x, t, le);
      ConsSorted(s[0], Insert(x, t, le), le);
    } else if s != [] {
      forall k | 0 <= k < |s| ensures le(x, s[k]) {
        assert x in [x] + s && s[0] in [x] + s && s[k] in [x] + s;
        if k > 0 {
          assert le(s[0], s[k]);
        }
      }
      ConsSorted(x, s, le);
    }
  }

  /** An ordered sequence stays ordered under a new head that comes before each of its elements. */
  lemma ConsSorted<T>(y: T, r: seq<T>, le: (T, T) -> bool)
    requires SortedBy(r, le)
    requires forall k :: 0 <= k < |r| ==> le(y, r[k])
    ensures SortedBy([y] + r, le)
  {
    forall i, j | 0 <= i < j < |r| + 1 ensures le(([y] + r)[i], ([y] + r)[j]) {
      if i > 0 {
        assert ([y] + r)[i] == r[i - 1] && ([y] + r)[j] == r[j - 1];
      }
    }
  }

  /** A lower bound of `x` and of every element of `t` bounds every element of the insertion. */
  lemma InsertBounded<T>(y: T, x: T, t: seq<T>, le: (T, T) -> bool)
    requires forall a :: a in [x] + t ==> le(y, a)
    ensures forall k :: 0 <= k < |Insert(x, t, le)| ==> le(y, Insert(x, t, le)[k])
  {
    var r := Insert(x, t, le);
    forall k | 0 <= k < |r| ensures le(y, r[k]) {
      assert r[k] in multiset(r);
      assert r[k] in [x] + t by {
        if r[k] != x {
          assert r[k] in multiset(t);
        }
      }
    }
  }

  /** The sorted result is ordered by `le` whenever `le` is a total preorder on the input. */
  lemma {:induction false} SortBySorted<T>(s: seq<T>, le: (T, T) -> bool)
    requires TotalPreorderOn(s, le)
    ensures SortedBy(SortBy(s, le), le)
  {
    if s != [] {
      var t := s[1..];
      assert forall a :: a in t ==> a in s;
      SortBySorted(t, le);
      var r := SortBy(t, le);
      assert forall a :: a in [s[0]] + r ==> a in s by {
        forall a | a in [s[0]] + r ensures a in s {
          if a != s[0] {
            assert a in multiset(r);
            assert a in t;
          }
        }
      }
      InsertSorted(s[0], r, le);
    }
  }

  /** A prefix of an ordered sequence is ordered. */
  lemma SortedPrefix<T>(s: seq<T>, n: nat, le: (T, T) -> bool)
    requires SortedBy(s, le) && n <= |s|
    ensures SortedBy(s[..n], le)
  {
  }

  /** No element occurs twice. */
  predicate Distinct<T(==)>(s: seq<T>)
  {
    forall i, j :: 0 <= i < j < |s| ==> s[i] != s[j]
  }

  /** Distinct elements are those of multiplicity at most one, so a permutation keeps them distinct. */
  lemma {:induction false} DistinctCounts<T>(s: seq<T>)
    ensures Distinct(s) <==> forall x :: multiset(s)[x] <= 1
  {
    if s != [] {
      var t, y := s[..|s| - 1], s[|s| - 1];
      assert s == t + [y];
      DistinctCounts(t);
      if Distinct(s) {
        assert Distinct(t);
        forall k | 0 <= k < |t| ensures t[k] != y {
          assert s[k] == t[k];
        }
      }
      if forall x :: multiset(s)[x] <= 1 {
        assert forall x :: multiset(t)[x] <= multiset(s)[x];
        forall i, j | 0 <= i < j < |s| ensures s[i] != s[j] {
          if j == |s| - 1 {
            assert s[i] in t;
            assert multiset(s)[y] == multiset(t)[y] + 1;
          } else {
            assert s[i] == t[i] && s[j] == t[j];
          }
        }
      }
    }
  }
}
