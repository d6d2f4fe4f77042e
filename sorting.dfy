/**
 * Array.prototype.sort with a comparator `(a, b) => key(a) - key(b)`, as the
 * event lists use it, modelled on values: an insertion sort by a real key.
 */
module Sorting {
  /** `s` is in ascending order of `key`. */
  ghost predicate SortedBy<T>(s: seq<T>, key: T -> real) {
    forall i, j :: 0 <= i < j < |s| ==> key(s[i]) <= key(s[j])
  }

  /** Any two entries at different positions of `s` are related by `rel`. */
  ghost predicate Pairwise<T>(s: seq<T>, rel: (T, T) -> bool) {
    forall i, j :: 0 <= i < |s| && 0 <= j < |s| && i != j ==> rel(s[i], s[j])
  }

  /** Puts `x` in front of the first entry whose key is not smaller than its own. */
  function Insert<T>(x: T, s: seq<T>, key: T -> real): (r: seq<T>)
    requires SortedBy(s, key)
    ensures SortedBy(r, key)
    ensures forall i :: 0 <= i < |r| ==> r[i] == x || r[i] in s
    ensures multiset(r) == multiset(s) + multiset{x}
    ensures |r| == |s| + 1
    ensures r[0] == if s == [] || key(x) <= key(s[0]) then x else s[0]
  {
    if s == [] then [x]
    else if key(x) <= key(s[0]) then [x] + s
    else
      assert s == [s[0]] + s[1..];
      assert |s| > 1 ==> s[1..][0] == s[1];
      var rest := Insert(x, s[1..], key);
      ConsSorted(s[0], rest, key);
      [s[0]] + rest
  }

  /** A head no larger than any entry of a sorted tail keeps it sorted. */
  lemma ConsSorted<T>(h: T, t: seq<T>, key: T -> real)
    requires SortedBy(t, key)
    requires t != [] ==> key(h) <= key(t[0])
    ensures SortedBy([h] + t, key)
  {
    var r := [h] + t;
    forall i, j | 0 <= i < j < |r| ensures key(r[i]) <= key(r[j]) {
      assert r[j] == t[j - 1];
      if i > 0 {
        assert r[i] == t[i - 1];
      } else {
        assert key(t[0]) <= key(t[j - 1]);
      }
    }
  }

  /** The sorted permutation of `s`; entries with equal keys keep their order. */
  function SortBy<T>(s: seq<T>, key: T -> real): (r: seq<T>)
    ensures SortedBy(r, key)
    ensures multiset(r) == multiset(s)
    ensures |r| == |s|
  {
    if s == [] then []
    else
      assert s == [s[0]] + s[1..];
      Insert(s[0], SortBy(s[1..], key), key)
  }

  /** Dropping the head keeps a pairwise relation. */
  lemma PairwiseTail<T>(s: seq<T>, rel: (T, T) -> bool)
    requires s != [] && Pairwise(s, rel)
    ensures Pairwise(s[1..], rel)
  {
    var t := s[1..];
    forall i, j | 0 <= i < |t| && 0 <= j < |t| && i != j ensures rel(t[i], t[j]) {
      assert t[i] == s[i + 1] && t[j] == s[j + 1];
    }
  }

  /** A head related both ways to every entry of a pairwise-related tail. */
  lemma PairwiseCons<T>(h: T, t: seq<T>, rel: (T, T) -> bool)
    requires Pairwise(t, rel)
    requires forall k :: 0 <= k < |t| ==> rel(h, t[k]) && rel(t[k], h)
    ensures Pairwise([h] + t, rel)
  {
    var r := [h] + t;
    forall i, j | 0 <= i < |r| && 0 <= j < |r| && i != j ensures rel(r[i], r[j]) {
      if i == 0 {
        assert r[j] == t[j - 1];
      } else if j == 0 {
        assert r[i] == t[i - 1];
      } else {
        assert r[i] == t[i - 1] && r[j] == t[j - 1];
      }
    }
  }

  lemma {:induction false} InsertPairwise<T>(x: T, s: seq<T>, key: T -> real, rel: (T, T) -> bool)
    requires SortedBy(s, key) && Pairwise(s, rel)
    requires forall k :: 0 <= k < |s| ==> rel(x, s[k]) && rel(s[k], x)
    ensures Pairwise(Insert(x, s, key), rel)
  {
    if s == [] {
    } else if key(x) <= key(s[0]) {
      PairwiseCons(x, s, rel);
    } else {
      var t := s[1..];
      PairwiseTail(s, rel);
      assert forall k :: 0 <= k < |t| ==> t[k] == s[k + 1];
      InsertPairwise(x, t, key, rel);
      var tail := Insert(x, t, key);
      forall k | 0 <= k < |tail| ensures rel(s[0], tail[k]) && rel(tail[k], s[0]) {
        if tail[k] != x {
          var m :| 0 <= m < |t| && t[m] == tail[k];
          assert s[m + 1] == tail[k];
        }
      }
      PairwiseCons(s[0], tail, rel);
    }
  }

  /** Sorting keeps every pairwise relation the input had. */
  lemma {:induction false} SortPairwise<T>(s: seq<T>, key: T -> real, rel: (T, T) -> bool)
    requires Pairwise(s, rel)
    ensures Pairwise(SortBy(s, key), rel)
  {
    if s != [] {
      var rest := s[1..];
      PairwiseTail(s, rel);
      SortPairwise(rest, key, rel);
      var sorted := SortBy(rest, key);
      forall m | 0 <= m < |sorted| ensures rel(s[0], sorted[m]) && rel(sorted[m], s[0]) {
        assert sorted[m] in multiset(rest);
        var k :| 0 <= k < |rest| && rest[k] == sorted[m];
        assert s[k + 1] == sorted[m];
      }
      InsertPairwise(s[0], sorted, key, rel);
    }
  }
}
